/**
 * The lexer (`TokenStore`): scans source text left to right, keeps a line
 * and a column counter, and appends typed tokens.
 *
 * Each rule of the scanner is first given as a function of the source text
 * and a cursor; `StepAt` is one turn of the main loop and `Lex` the whole
 * loop.  The class `TokenStore` then does the same work step by step, as the
 * source does, and is proved to agree with `Lex`.
 */
module Lexer {
  import opened Wrappers
  import Decimal

  datatype TokenKind =
    | Keyword
    | Identifier
    | IntegerLiteral
    | FloatLiteral
    | StringLiteral
    | CharLiteral
    | Operator
    | Symbol

  /** A token records the counters current when it was added. */
  datatype Token = Token(kind: TokenKind, value: string, line: int, column: int)

  /** The reserved words; `while` is not among them. */
  const Keywords: set<string> :=
    {"start", "close", "intbox", "floatbox", "stringbox", "charbox",
     "boolbox", "out", "in", "if", "else", "true", "false", "endl"}

  const Operators: set<string> :=
    {"+", "-", "*", "/", "%", "==", "!=", "<", ">", "<=", ">=", "<<", ">>", "="}

  const Symbols: set<char> := {'{', '}', '(', ')', ';', ','}

  /** A lexing failure; the source throws and reports these fields in its message. */
  datatype LexError =
    | UnterminatedComment(line: int)
    | UnterminatedString(line: int)
    | UnterminatedChar(line: int)
    | UnknownToken(ch: char, line: int, column: int)

  // Character classes of the C locale.

  predicate IsSpace(c: char) {
    c == ' ' || '\t' <= c <= '\r'
  }

  predicate IsAlpha(c: char) {
    'A' <= c <= 'Z' || 'a' <= c <= 'z'
  }

  predicate IsWordStart(c: char) {
    IsAlpha(c) || c == '_'
  }

  predicate IsWordChar(c: char) {
    IsAlpha(c) || Decimal.IsDigit(c) || c == '_'
  }

  datatype CharClass = Digits | WordChars

  predicate InClass(c: char, cls: CharClass) {
    match cls
    case Digits => Decimal.IsDigit(c)
    case WordChars => IsWordChar(c)
  }

  /** `p` occurs in `src` at `i` (the source's `source.substr(i, |p|) == p`). */
  predicate IsPrefixAt(p: string, src: string, i: nat) {
    i + |p| <= |src| && src[i..i + |p|] == p
  }

  /** Position and the two counters of the scanner. */
  datatype Cursor = Cursor(pos: nat, line: int, column: int)

  /** One turn of the scanner over the input. */
  datatype Step =
    | Skip(next: Cursor)
    | Emit(tok: Token, next: Cursor)
    | Fail(error: LexError, at: Cursor)

  /** Passing over one whitespace or comment character. */
  function Bump(cur: Cursor, c: char): (r: Cursor)
    ensures r.pos == cur.pos + 1
    ensures c == '\n' ==> r.line == cur.line + 1 && r.column == 1
    ensures c != '\n' ==> r.line == cur.line && r.column == cur.column + 1
  {
    if c == '\n' then Cursor(cur.pos + 1, cur.line + 1, 1)
    else Cursor(cur.pos + 1, cur.line, cur.column + 1)
  }

  /** End of the maximal run of `cls` characters that starts at `i`. */
  function RunEnd(src: string, i: nat, cls: CharClass): (j: nat)
    requires i <= |src|
    ensures i <= j <= |src|
    ensures forall k :: i <= k < j ==> InClass(src[k], cls)
    ensures j == |src| || !InClass(src[j], cls)
    decreases |src| - i
  {
    if i < |src| && InClass(src[i], cls) then RunEnd(src, i + 1, cls) else i
  }

  // ---------------------------------------------------------------- comments

  /** The first newline at or after `i`, or the end of the input. */
  function LineEnd(src: string, i: nat): (j: nat)
    requires i <= |src|
    ensures i <= j <= |src|
    ensures j < |src| ==> src[j] == '\n'
    ensures forall k :: i <= k < j ==> src[k] != '\n'
    decreases |src| - i
  {
    if i < |src| && src[i] != '\n' then LineEnd(src, i + 1) else i
  }

  /** `/` followed by `second` at `i` (the source's `source.substr(i, 2) == "/" + second`). */
  predicate OpensAt(src: string, i: nat, second: char) {
    i + 1 < |src| && src[i] == '/' && src[i + 1] == second
  }

  /** `*` `/` at `i`. */
  predicate ClosesAt(src: string, i: nat) {
    i + 1 < |src| && src[i] == '*' && src[i + 1] == '/'
  }

  /**
   * Scans the body of a block comment, counting lines and columns, up to the
   * first `*` `/` or the end of the input.
   */
  function BlockBody(src: string, cur: Cursor): (r: Cursor)
    requires cur.pos <= |src|
    ensures cur.pos <= r.pos <= |src|
    ensures r.pos < |src| ==> ClosesAt(src, r.pos)
    ensures forall k :: cur.pos <= k < r.pos ==> !ClosesAt(src, k)
    decreases |src| - cur.pos
  {
    if cur.pos < |src| && !ClosesAt(src, cur.pos) then BlockBody(src, Bump(cur, src[cur.pos]))
    else cur
  }

  /**
   * `skipComments`: a line comment runs up to (not including) the next
   * newline and moves no counter; a block comment counts the characters of
   * its body and fails when no `*` `/` follows.  Anything else is left alone.
   */
  function SkipComment(src: string, cur: Cursor): (r: Step)
    requires cur.pos <= |src|
    ensures !r.Emit?
    ensures r.Skip? ==> cur.pos <= r.next.pos <= |src|
  {
    if OpensAt(src, cur.pos, '/') then
      Skip(cur.(pos := LineEnd(src, cur.pos)))
    else if OpensAt(src, cur.pos, '*') then
      var e := BlockBody(src, cur.(pos := cur.pos + 2));
      if e.pos >= |src| then Fail(UnterminatedComment(e.line), e)
      else Skip(e.(pos := e.pos + 2))
    else
      Skip(cur)
  }

  // ---------------------------------------------------------------- literals

  /**
   * The scan of `matchStringLiteral` from `i`: stops at a quote or past the
   * end; a backslash makes it step over the character after it.
   */
  function StringScan(src: string, i: nat): (j: nat)
    requires i <= |src| + 1
    ensures i <= j <= |src| + 1
    ensures j < |src| ==> src[j] == '"'
    decreases |src| + 1 - i
  {
    if i < |src| && src[i] != '"' then
      if src[i] == '\\' then StringScan(src, i + 2) else StringScan(src, i + 1)
    else i
  }

  /** End (one past the closing quote) of the string literal opening at `pos`. */
  function StringEnd(src: string, pos: nat): Option<nat>
    requires pos <= |src|
  {
    var j := StringScan(src, pos + 1);
    if j >= |src| then None else Some(j + 1)
  }

  /**
   * End of the character literal opening at `pos`.  After the opening quote
   * the source steps over two characters when it sees a backslash, or when the
   * character after next is a quote, and over one otherwise; then it wants a
   * quote.  Reading one past the last character yields the string's
   * terminating NUL, which is not a quote.
   */
  function CharEnd(src: string, pos: nat): Option<nat>
    requires pos <= |src|
  {
    var p := pos + 1;
    var q := if p < |src| && (src[p] == '\\' || (p + 1 < |src| && src[p + 1] == '\'')) then p + 2 else p + 1;
    if q < |src| && src[q] == '\'' then Some(q + 1) else None
  }

  /** `matchNumber`: a digit run, and a float when a dot follows it. */
  function NumberEnd(src: string, pos: nat): (r: (TokenKind, nat))
    requires pos <= |src|
  {
    var d := RunEnd(src, pos, Digits);
    if d < |src| && src[d] == '.' then (FloatLiteral, RunEnd(src, d + 1, Digits))
    else (IntegerLiteral, d)
  }

  // --------------------------------------------------------------- operators

  /**
   * The iteration order of the operator hash set, which the language leaves
   * unspecified: any enumeration of exactly the operators.
   */
  ghost predicate IsOperatorOrder(order: seq<string>) {
    forall o {:trigger o in order} :: o in order <==> o in Operators
  }

  /** Index of the first operator of `order`, from `i` on, that occurs at `pos`. */
  function FirstMatch(order: seq<string>, src: string, pos: nat, i: nat): (k: nat)
    requires i <= |order|
    ensures i <= k <= |order|
    ensures k < |order| ==> IsPrefixAt(order[k], src, pos)
    ensures forall j :: i <= j < k ==> !IsPrefixAt(order[j], src, pos)
    decreases |order| - i
  {
    if i == |order| || IsPrefixAt(order[i], src, pos) then i
    else FirstMatch(order, src, pos, i + 1)
  }

  // ------------------------------------------------------------ the main loop

  /** What every token-producing rule promises about the token it adds. */
  predicate Scanned(r: Step, src: string, cur: Cursor) {
    r.Emit? ==>
      && cur.pos < r.next.pos <= |src|
      && r.tok.value == src[cur.pos..r.next.pos]
      && r.tok.line == cur.line && r.tok.column == cur.column
      && r.next.line == cur.line && r.next.column == cur.column
  }

  /** Identifiers and keywords. */
  function WordStep(src: string, cur: Cursor): (r: Step)
    requires cur.pos < |src| && IsWordStart(src[cur.pos])
    ensures r.Emit? && Scanned(r, src, cur)
  {
    var e := RunEnd(src, cur.pos, WordChars);
    var word := src[cur.pos..e];
    Emit(Token(if word in Keywords then Keyword else Identifier, word, cur.line, cur.column), cur.(pos := e))
  }

  /** Integer and float literals. */
  function NumberStep(src: string, cur: Cursor): (r: Step)
    requires cur.pos < |src| && Decimal.IsDigit(src[cur.pos])
    ensures r.Emit? && Scanned(r, src, cur)
  {
    var (kind, e) := NumberEnd(src, cur.pos);
    Emit(Token(kind, src[cur.pos..e], cur.line, cur.column), cur.(pos := e))
  }

  function StringStep(src: string, cur: Cursor): (r: Step)
    requires cur.pos < |src|
    ensures !r.Skip? && Scanned(r, src, cur)
  {
    match StringEnd(src, cur.pos)
    case None => Fail(UnterminatedString(cur.line), cur)
    case Some(e) => Emit(Token(StringLiteral, src[cur.pos..e], cur.line, cur.column), cur.(pos := e))
  }

  function CharStep(src: string, cur: Cursor): (r: Step)
    requires cur.pos < |src|
    ensures !r.Skip? && Scanned(r, src, cur)
  {
    match CharEnd(src, cur.pos)
    case None => Fail(UnterminatedChar(cur.line), cur)
    case Some(e) => Emit(Token(CharLiteral, src[cur.pos..e], cur.line, cur.column), cur.(pos := e))
  }

  /** Operators, tried in `order`, then symbols, then the unknown-character error. */
  function OperatorStep(src: string, cur: Cursor, order: seq<string>): (r: Step)
    requires cur.pos < |src| && IsOperatorOrder(order)
    ensures !r.Skip? && Scanned(r, src, cur)
    ensures r.Emit? && r.tok.kind == Operator ==> r.tok.value in Operators
    ensures r.Emit? && r.tok.kind == Symbol ==> |r.tok.value| == 1 && r.tok.value[0] in Symbols
  {
    var c := src[cur.pos];
    var k := FirstMatch(order, src, cur.pos, 0);
    if k < |order| then
      var op := order[k];
      assert op in order;
      assert op in Operators;
      assert op != [];
      Emit(Token(Operator, op, cur.line, cur.column), cur.(pos := cur.pos + |op|))
    else if c in Symbols then
      Emit(Token(Symbol, [c], cur.line, cur.column), cur.(pos := cur.pos + 1))
    else
      Fail(UnknownToken(c, cur.line, cur.column), cur)
  }

  /** One turn of the `while (pos < length)` loop of `tokenize`. */
  function StepAt(src: string, cur: Cursor, order: seq<string>): (r: Step)
    requires cur.pos < |src|
    requires IsOperatorOrder(order)
    ensures r.Skip? ==> cur.pos < r.next.pos <= |src|
    ensures Scanned(r, src, cur)
    ensures r.Emit? && r.tok.kind == Operator ==> r.tok.value in Operators
    ensures r.Emit? && r.tok.kind == Symbol ==> |r.tok.value| == 1 && r.tok.value[0] in Symbols
  {
    var c := src[cur.pos];
    if IsSpace(c) then Skip(Bump(cur, c))
    else if OpensAt(src, cur.pos, '/') || OpensAt(src, cur.pos, '*') then SkipComment(src, cur)
    else if IsWordStart(c) then WordStep(src, cur)
    else if Decimal.IsDigit(c) then NumberStep(src, cur)
    else if c == '"' then StringStep(src, cur)
    else if c == '\'' then CharStep(src, cur)
    else OperatorStep(src, cur, order)
  }

  /** What `tokenize` leaves behind: the token list, the counters, and the error thrown, if any. */
  datatype Lexed = Lexed(tokens: seq<Token>, at: Cursor, error: Option<LexError>)

  /** The main loop of `tokenize`, run from `cur` with `toks` already stored. */
  function Lex(src: string, cur: Cursor, toks: seq<Token>, order: seq<string>): (r: Lexed)
    requires cur.pos <= |src|
    requires IsOperatorOrder(order)
    decreases |src| - cur.pos
  {
    if cur.pos == |src| then Lexed(toks, cur, None)
    else
      match StepAt(src, cur, order)
      case Skip(next) => Lex(src, next, toks, order)
      case Emit(t, next) => Lex(src, next, toks + [t], order)
      case Fail(e, at) => Lexed(toks, at, Some(e))
  }

  // ------------------------------------------------------------ the class

  class TokenStore {
    var tokens: seq<Token>
    var lineNumber: int
    var columnNumber: int

    constructor ()
      ensures tokens == [] && lineNumber == 1 && columnNumber == 1
    {
      tokens := [];
      lineNumber := 1;
      columnNumber := 1;
    }

    method AddToken(kind: TokenKind, value: string)
      modifies this
      ensures tokens == old(tokens) + [Token(kind, value, lineNumber, columnNumber)]
      ensures lineNumber == old(lineNumber) && columnNumber == old(columnNumber)
    {
      tokens := tokens + [Token(kind, value, lineNumber, columnNumber)];
    }

    method SkipComments(source: string, pos: nat) returns (next: nat, err: Option<LexError>)
      requires pos <= |source|
      modifies this
      ensures tokens == old(tokens)
      ensures var s := SkipComment(source, Cursor(pos, old(lineNumber), old(columnNumber)));
              match s
              case Skip(c) => err == None && c == Cursor(next, lineNumber, columnNumber)
              case Fail(e, c) => err == Some(e) && c == Cursor(next, lineNumber, columnNumber)
              case Emit(_, _) => false
    {
      next := pos;
      err := None;
      if OpensAt(source, next, '/') {
        while next < |source| && source[next] != '\n'
          invariant pos <= next <= |source|
          invariant LineEnd(source, next) == LineEnd(source, pos)
          decreases |source| - next
        {
          next := next + 1;
        }
      } else if OpensAt(source, next, '*') {
        next := next + 2;
        ghost var goal := BlockBody(source, Cursor(next, lineNumber, columnNumber));
        while next < |source| && !ClosesAt(source, next)
          invariant next <= |source|
          invariant tokens == old(tokens)
          invariant BlockBody(source, Cursor(next, lineNumber, columnNumber)) == goal
          decreases |source| - next
        {
          assert !ClosesAt(source, next);
          if source[next] == '\n' {
            lineNumber := lineNumber + 1;
            columnNumber := 1;
          } else {
            columnNumber := columnNumber + 1;
          }
          next := next + 1;
        }
        if next >= |source| {
          err := Some(UnterminatedComment(lineNumber));
          return;
        }
        assert ClosesAt(source, next);
        next := next + 2;
      }
    }

    method MatchStringLiteral(source: string, pos: nat) returns (next: nat, err: Option<LexError>)
      requires pos <= |source|
      modifies this
      ensures lineNumber == old(lineNumber) && columnNumber == old(columnNumber)
      ensures match StringEnd(source, pos)
              case None => err == Some(UnterminatedString(lineNumber)) && tokens == old(tokens)
              case Some(e) => err == None && next == e && next <= |source|
                              && tokens == old(tokens) + [Token(StringLiteral, source[pos..e], lineNumber, columnNumber)]
    {
      var start := pos;
      next := pos + 1;
      while next < |source| && source[next] != '"'
        invariant next <= |source| + 1
        invariant StringScan(source, next) == StringScan(source, pos + 1)
        decreases |source| + 1 - next
      {
        if source[next] == '\\' {
          next := next + 1;
        }
        next := next + 1;
      }
      if next >= |source| || source[next] != '"' {
        err := Some(UnterminatedString(lineNumber));
        return;
      }
      next := next + 1;
      AddToken(StringLiteral, source[start..next]);
      err := None;
    }

    method MatchCharLiteral(source: string, pos: nat) returns (next: nat, err: Option<LexError>)
      requires pos <= |source|
      modifies this
      ensures lineNumber == old(lineNumber) && columnNumber == old(columnNumber)
      ensures match CharEnd(source, pos)
              case None => err == Some(UnterminatedChar(lineNumber)) && tokens == old(tokens)
              case Some(e) => err == None && next == e && next <= |source|
                              && tokens == old(tokens) + [Token(CharLiteral, source[pos..e], lineNumber, columnNumber)]
    {
      var start := pos;
      next := pos + 1;
      if next < |source| && (source[next] == '\\' || (next + 1 < |source| && source[next + 1] == '\'')) {
        next := next + 2;
      } else {
        next := next + 1;
      }
      if next >= |source| || source[next] != '\'' {
        err := Some(UnterminatedChar(lineNumber));
        return;
      }
      next := next + 1;
      AddToken(CharLiteral, source[start..next]);
      err := None;
    }

    method MatchNumber(source: string, pos: nat) returns (next: nat)
      requires pos <= |source|
      modifies this
      ensures lineNumber == old(lineNumber) && columnNumber == old(columnNumber)
      ensures var (kind, e) := NumberEnd(source, pos);
              next == e && tokens == old(tokens) + [Token(kind, source[pos..e], lineNumber, columnNumber)]
    {
      var start := pos;
      next := pos;
      while next < |source| && Decimal.IsDigit(source[next])
        invariant pos <= next <= |source|
        invariant RunEnd(source, next, Digits) == RunEnd(source, pos, Digits)
        decreases |source| - next
      {
        next := next + 1;
      }
      if next < |source| && source[next] == '.' {
        next := next + 1;
        ghost var mark := next;
        while next < |source| && Decimal.IsDigit(source[next])
          invariant mark <= next <= |source|
          invariant RunEnd(source, next, Digits) == RunEnd(source, mark, Digits)
          decreases |source| - next
        {
          next := next + 1;
        }
        AddToken(FloatLiteral, source[start..next]);
      } else {
        AddToken(IntegerLiteral, source[start..next]);
      }
    }

    /** The identifier/keyword branch of `tokenize`. */
    method MatchWord(source: string, pos: nat) returns (next: nat)
      requires pos <= |source|
      modifies this
      ensures lineNumber == old(lineNumber) && columnNumber == old(columnNumber)
      ensures next == RunEnd(source, pos, WordChars)
      ensures var word := source[pos..next];
              tokens == old(tokens) + [Token(if word in Keywords then Keyword else Identifier, word, lineNumber, columnNumber)]
    {
      next := pos;
      while next < |source| && IsWordChar(source[next])
        invariant pos <= next <= |source|
        invariant RunEnd(source, next, WordChars) == RunEnd(source, pos, WordChars)
        decreases |source| - next
      {
        next := next + 1;
      }
      var word := source[pos..next];
      if word in Keywords {
        AddToken(Keyword, word);
      } else {
        AddToken(Identifier, word);
      }
    }

    /** The operator branch of `tokenize`: the first operator of `order` found at `pos`. */
    method MatchOperator(source: string, pos: nat, order: seq<string>) returns (matched: bool, next: nat)
      modifies this
      ensures lineNumber == old(lineNumber) && columnNumber == old(columnNumber)
      ensures var k := FirstMatch(order, source, pos, 0);
              matched == (k < |order|)
              && (matched ==> next == pos + |order[k]|
                              && tokens == old(tokens) + [Token(Operator, order[k], lineNumber, columnNumber)])
              && (!matched ==> next == pos && tokens == old(tokens))
    {
      matched := false;
      next := pos;
      var i := 0;
      while i < |order| && !matched
        invariant i <= |order|
        invariant lineNumber == old(lineNumber) && columnNumber == old(columnNumber)
        invariant !matched ==> FirstMatch(order, source, pos, i) == FirstMatch(order, source, pos, 0)
                               && tokens == old(tokens) && next == pos
        invariant matched ==> i < |order| && FirstMatch(order, source, pos, 0) == i
                              && tokens == old(tokens) + [Token(Operator, order[i], lineNumber, columnNumber)]
                              && next == pos + |order[i]|
        decreases |order| - i, !matched
      {
        var op := order[i];
        if IsPrefixAt(op, source, pos) {
          AddToken(Operator, op);
          next := pos + |op|;
          matched := true;
        } else {
          i := i + 1;
        }
      }
    }

    /** One turn of the main loop of `tokenize`, at a position inside the input. */
    method ScanAt(source: string, pos: nat, order: seq<string>) returns (next: nat, err: Option<LexError>)
      requires pos < |source|
      requires IsOperatorOrder(order)
      modifies this
      ensures match StepAt(source, Cursor(pos, old(lineNumber), old(columnNumber)), order)
              case Skip(c) => err == None && tokens == old(tokens)
                              && c == Cursor(next, lineNumber, columnNumber)
              case Emit(t, c) => err == None && tokens == old(tokens) + [t]
                                 && c == Cursor(next, lineNumber, columnNumber)
              case Fail(e, c) => err == Some(e) && tokens == old(tokens)
                                 && c.line == lineNumber && c.column == columnNumber
    {
      var c := source[pos];
      err := None;
      if IsSpace(c) {
        if c == '\n' {
          lineNumber := lineNumber + 1;
          columnNumber := 1;
        } else {
          columnNumber := columnNumber + 1;
        }
        next := pos + 1;
      } else if OpensAt(source, pos, '/') || OpensAt(source, pos, '*') {
        next, err := SkipComments(source, pos);
      } else if IsWordStart(c) {
        next := MatchWord(source, pos);
      } else if Decimal.IsDigit(c) {
        next := MatchNumber(source, pos);
      } else if c == '"' {
        next, err := MatchStringLiteral(source, pos);
      } else if c == '\'' {
        next, err := MatchCharLiteral(source, pos);
      } else {
        var matchedOperator;
        matchedOperator, next := MatchOperator(source, pos, order);
        if !matchedOperator {
          if c in Symbols {
            AddToken(Symbol, [c]);
            next := pos + 1;
          } else {
            err := Some(UnknownToken(c, lineNumber, columnNumber));
          }
        }
      }
    }

    /**
     * `tokenize`.  `order` is the iteration order of the operator set, which
     * decides which operator wins when several occur at the same position.
     */
    method Tokenize(source: string, order: seq<string>) returns (err: Option<LexError>)
      requires IsOperatorOrder(order)
      modifies this
      ensures var r := Lex(source, Cursor(0, old(lineNumber), old(columnNumber)), old(tokens), order);
              tokens == r.tokens && lineNumber == r.at.line && columnNumber == r.at.column && err == r.error
    {
      var pos: nat := 0;
      ghost var goal := Lex(source, Cursor(0, lineNumber, columnNumber), tokens, order);
      while pos < |source|
        invariant pos <= |source|
        invariant Lex(source, Cursor(pos, lineNumber, columnNumber), tokens, order) == goal
        decreases |source| - pos
      {
        var next, e := ScanAt(source, pos, order);
        if e.Some? {
          return e;
        }
        pos := next;
      }
      return None;
    }
  }

  // ------------------------------------------------------------ properties

  /** A word becomes a keyword token exactly when it is reserved; its lexeme is the maximal word run. */
  lemma WordToken(src: string, cur: Cursor, order: seq<string>)
    requires cur.pos < |src| && IsOperatorOrder(order)
    requires IsWordStart(src[cur.pos])
    ensures var e := RunEnd(src, cur.pos, WordChars);
            var r := StepAt(src, cur, order);
            r.Emit? && r.next.pos == e && r.tok.value == src[cur.pos..e]
            && (e == |src| || !IsWordChar(src[e]))
            && (r.tok.kind == Keyword <==> r.tok.value in Keywords)
            && (r.tok.kind == Keyword || r.tok.kind == Identifier)
  {
    var c := src[cur.pos];
    assert !IsSpace(c) && c != '/';
    assert StepAt(src, cur, order) == WordStep(src, cur);
  }

  /** `while` is not reserved, so it lexes as an identifier. */
  lemma WhileIsIdentifier(order: seq<string>)
    requires IsOperatorOrder(order)
    ensures Lex("while", Cursor(0, 1, 1), [], order) == Lexed([Token(Identifier, "while", 1, 1)], Cursor(5, 1, 1), None)
  {
    var src := "while";
    assert RunEnd(src, 0, WordChars) == 5 by {
      assert RunEnd(src, 5, WordChars) == 5;
    }
    assert src[0..5] == "while";
    assert "while" !in Keywords;
    assert StepAt(src, Cursor(0, 1, 1), order) == Emit(Token(Identifier, "while", 1, 1), Cursor(5, 1, 1));
  }

  /**
   * A digit run is an integer literal unless a dot follows it; then the dot
   * and the digits after it (possibly none) join a float literal.
   */
  lemma NumberToken(src: string, cur: Cursor, order: seq<string>)
    requires cur.pos < |src| && IsOperatorOrder(order)
    requires Decimal.IsDigit(src[cur.pos])
    ensures var d := RunEnd(src, cur.pos, Digits);
            var r := StepAt(src, cur, order);
            r.Emit?
            && (r.tok.kind == FloatLiteral <==> d < |src| && src[d] == '.')
            && (r.tok.kind == IntegerLiteral <==> !(d < |src| && src[d] == '.'))
            && (r.tok.kind == IntegerLiteral ==> r.next.pos == d)
            && (r.tok.kind == FloatLiteral ==> r.next.pos == RunEnd(src, d + 1, Digits))
  {
    var c := src[cur.pos];
    assert !IsSpace(c) && !IsWordStart(c) && src[cur.pos] != '/';
    assert StepAt(src, cur, order) == NumberStep(src, cur);
  }

  /** `1.` is a float literal although no digit follows the dot. */
  lemma DotWithoutFraction(order: seq<string>)
    requires IsOperatorOrder(order)
    ensures StepAt("1.", Cursor(0, 1, 1), order) == Emit(Token(FloatLiteral, "1.", 1, 1), Cursor(2, 1, 1))
  {
    var src := "1.";
    assert RunEnd(src, 0, Digits) == 1 by {
      assert RunEnd(src, 1, Digits) == 1;
    }
    assert RunEnd(src, 2, Digits) == 2;
  }

  /**
   * A string literal either fails, reporting the line it starts on, when the
   * scan runs off the end, or its lexeme is the source text from the opening
   * to the closing quote.
   */
  lemma StringToken(src: string, cur: Cursor, order: seq<string>)
    requires cur.pos < |src| && IsOperatorOrder(order)
    requires src[cur.pos] == '"'
    ensures var r := StepAt(src, cur, order);
            && (r.Fail? <==> StringScan(src, cur.pos + 1) >= |src|)
            && (r.Fail? ==> r.error == UnterminatedString(cur.line))
            && (r.Emit? ==> r.tok.kind == StringLiteral && |r.tok.value| >= 2
                            && r.tok.value[0] == '"' && r.tok.value[|r.tok.value| - 1] == '"')
  {
  }

  /** A backslash hides the quote after it: `"a\"b"` is one literal of six characters. */
  lemma EscapedQuoteInString(order: seq<string>)
    requires IsOperatorOrder(order)
    ensures var src := ['"', 'a', '\\', '"', 'b', '"'];
            StepAt(src, Cursor(0, 1, 1), order) == Emit(Token(StringLiteral, src, 1, 1), Cursor(6, 1, 1))
  {
    var src := ['"', 'a', '\\', '"', 'b', '"'];
    assert StringScan(src, 1) == 5 by {
      assert StringScan(src, 5) == 5;
      assert StringScan(src, 4) == 5;
      assert StringScan(src, 2) == StringScan(src, 4);
    }
  }

  /**
   * The inside of a string literal as the scanner reads it: a sequence of
   * units, each a backslash and any character after it, or one character
   * that is neither a quote nor a backslash.  The pattern `(\\.|[^"\\])*`
   * declared next to the scanner has this shape except that its `.` matches
   * no line break, so it would reject a backslash before a newline or a
   * carriage return, which the scanner accepts.
   */
  predicate Units(s: string)
    decreases |s|
  {
    || s == []
    || (|s| >= 2 && s[0] == '\\' && Units(s[2..]))
    || (s[0] != '"' && s[0] != '\\' && Units(s[1..]))
  }

  /** What the scan from `i` passes over before it stops at a quote is made of units. */
  lemma {:induction false} ScanUnits(src: string, i: nat)
    requires i <= |src| && StringScan(src, i) < |src|
    ensures Units(src[i..StringScan(src, i)])
    decreases |src| - i
  {
    var j := StringScan(src, i);
    if i < |src| && src[i] != '"' {
      if src[i] == '\\' {
        ScanUnits(src, i + 2);
        assert src[i..j][2..] == src[i + 2..j];
      } else {
        ScanUnits(src, i + 1);
        assert src[i..j][1..] == src[i + 1..j];
      }
    } else {
      assert src[i..j] == [];
    }
  }

  /** Units followed by a quote are scanned to exactly that quote. */
  lemma {:induction false} UnitsScan(src: string, i: nat, u: string)
    requires i + |u| < |src| && src[i..i + |u|] == u && Units(u) && src[i + |u|] == '"'
    ensures StringScan(src, i) == i + |u|
    decreases |u|
  {
    if u != [] {
      assert src[i] == u[0];
      if |u| >= 2 && u[0] == '\\' && Units(u[2..]) {
        assert src[i + 2..i + 2 + |u[2..]|] == u[2..];
        UnitsScan(src, i + 2, u[2..]);
      } else {
        assert src[i + 1..i + 1 + |u[1..]|] == u[1..];
        UnitsScan(src, i + 1, u[1..]);
      }
    }
  }

  /**
   * Every string literal the scanner adds is a quote, units, and a quote: a
   * backslash always takes the character after it, so an escaped quote never
   * ends the literal.
   */
  lemma StringLexemeUnits(src: string, cur: Cursor, order: seq<string>)
    requires cur.pos < |src| && IsOperatorOrder(order)
    requires src[cur.pos] == '"'
    ensures var r := StepAt(src, cur, order);
            r.Emit? ==> var v := r.tok.value;
              |v| >= 2 && v[0] == '"' && v[|v| - 1] == '"' && Units(v[1..|v| - 1])
  {
    StringStepUnits(src, cur);
    assert StepAt(src, cur, order) == StringStep(src, cur);
  }

  lemma StringStepUnits(src: string, cur: Cursor)
    requires cur.pos < |src| && src[cur.pos] == '"'
    ensures var r := StringStep(src, cur);
            r.Emit? ==> var v := r.tok.value;
              |v| >= 2 && v[0] == '"' && v[|v| - 1] == '"' && Units(v[1..|v| - 1])
  {
    var j := StringScan(src, cur.pos + 1);
    if j < |src| {
      ScanUnits(src, cur.pos + 1);
      Interior(src, cur.pos, j + 1);
      var v := src[cur.pos..j + 1];
      assert StringEnd(src, cur.pos) == Some(j + 1);
      assert StringStep(src, cur).tok.value == v;
    }
  }

  /** Dropping the first and last character of a slice. */
  lemma Interior(s: string, a: nat, b: nat)
    requires a + 2 <= b <= |s|
    ensures var v := s[a..b]; v[1..|v| - 1] == s[a + 1..b - 1]
  {
    var v := s[a..b];
    var inner, t := v[1..|v| - 1], s[a + 1..b - 1];
    assert |inner| == |t|;
    forall k | 0 <= k < |inner|
      ensures inner[k] == t[k]
    {
      assert inner[k] == v[k + 1] == s[a + k + 1];
    }
    assert inner == t;
  }

  /** A quote, units and a quote from `pos` to `e` end right after the second quote. */
  lemma UnitsEnd(src: string, pos: nat, e: nat)
    requires pos + 2 <= e <= |src| && src[e - 1] == '"' && Units(src[pos + 1..e - 1])
    ensures StringEnd(src, pos) == Some(e)
  {
    UnitsScan(src, pos + 1, src[pos + 1..e - 1]);
  }

  /** Conversely, a quote, units and a quote at the cursor are scanned as exactly that literal. */
  lemma UnitsAccepted(src: string, cur: Cursor, e: nat, order: seq<string>)
    requires cur.pos + 2 <= e <= |src| && src[cur.pos] == '"' && src[e - 1] == '"'
    requires Units(src[cur.pos + 1..e - 1]) && IsOperatorOrder(order)
    ensures StepAt(src, cur, order) == Emit(Token(StringLiteral, src[cur.pos..e], cur.line, cur.column), cur.(pos := e))
  {
    UnitsEnd(src, cur.pos, e);
    assert StepAt(src, cur, order) == StringStep(src, cur);
  }

  /** An unterminated string stops the scan: no token is added and the starting line is reported. */
  lemma UnterminatedStringStops(order: seq<string>)
    requires IsOperatorOrder(order)
    ensures Lex("\"abc", Cursor(0, 7, 3), [], order) == Lexed([], Cursor(0, 7, 3), Some(UnterminatedString(7)))
  {
    var src := "\"abc";
    assert StringScan(src, 1) == 4 by {
      assert StringScan(src, 4) == 4;
      assert StringScan(src, 3) == 4;
      assert StringScan(src, 2) == 4;
    }
  }

  /**
   * A successful character literal is always four characters long: a quote,
   * then either a backslash and any character, or any character followed by
   * two quotes.
   */
  lemma CharTokenShape(src: string, cur: Cursor, order: seq<string>)
    requires cur.pos < |src| && IsOperatorOrder(order)
    requires src[cur.pos] == '\''
    ensures var r := StepAt(src, cur, order);
            && (r.Fail? ==> r.error == UnterminatedChar(cur.line))
            && (r.Emit? ==> r.tok.kind == CharLiteral && |r.tok.value| == 4
                            && r.tok.value[0] == '\'' && r.tok.value[3] == '\''
                            && (r.tok.value[1] == '\\' || r.tok.value[2] == '\''))
  {
  }

  /** Both four-character shapes are accepted wherever they occur. */
  lemma CharShapeAccepted(src: string, cur: Cursor, order: seq<string>)
    requires cur.pos + 4 <= |src| && IsOperatorOrder(order)
    requires src[cur.pos] == '\'' && src[cur.pos + 3] == '\''
    requires src[cur.pos + 1] == '\\' || src[cur.pos + 2] == '\''
    ensures StepAt(src, cur, order)
      == Emit(Token(CharLiteral, src[cur.pos..cur.pos + 4], cur.line, cur.column), cur.(pos := cur.pos + 4))
  {
  }

  /** An unescaped character literal such as `'a'` is rejected ... */
  lemma PlainCharRejected(order: seq<string>)
    requires IsOperatorOrder(order)
    ensures StepAt("'a'", Cursor(0, 1, 1), order) == Fail(UnterminatedChar(1), Cursor(0, 1, 1))
  {
  }

  /** ... while an escaped one such as `'\n'` is accepted. */
  lemma EscapedCharAccepted(order: seq<string>)
    requires IsOperatorOrder(order)
    ensures var src := ['\'', '\\', 'n', '\''];
            StepAt(src, Cursor(0, 1, 1), order) == Emit(Token(CharLiteral, src, 1, 1), Cursor(4, 1, 1))
  {
  }

  /** Whitespace adds no token; a newline moves to the next line and column 1, anything else one column on. */
  lemma WhitespaceCounters(src: string, cur: Cursor, order: seq<string>)
    requires cur.pos < |src| && IsOperatorOrder(order)
    requires IsSpace(src[cur.pos])
    ensures var r := StepAt(src, cur, order);
            r.Skip? && r.next.pos == cur.pos + 1
            && (src[cur.pos] == '\n' ==> r.next.line == cur.line + 1 && r.next.column == 1)
            && (src[cur.pos] != '\n' ==> r.next.line == cur.line && r.next.column == cur.column + 1)
  {
  }

  /** A line comment adds no token and moves no counter; it ends before the next newline. */
  lemma LineCommentSkipped(src: string, cur: Cursor, order: seq<string>)
    requires cur.pos + 1 < |src| && IsOperatorOrder(order)
    requires src[cur.pos] == '/' && src[cur.pos + 1] == '/'
    ensures var r := StepAt(src, cur, order);
            r.Skip? && r.next.line == cur.line && r.next.column == cur.column
            && (r.next.pos == |src| || src[r.next.pos] == '\n')
            && forall k :: cur.pos <= k < r.next.pos ==> src[k] != '\n'
  {
  }

  /**
   * A block comment adds no token.  It fails exactly when no `*` `/` occurs
   * after its opening, and otherwise ends just after the first one.
   */
  lemma BlockCommentSkipped(src: string, cur: Cursor, order: seq<string>)
    requires cur.pos + 1 < |src| && IsOperatorOrder(order)
    requires src[cur.pos] == '/' && src[cur.pos + 1] == '*'
    ensures var r := StepAt(src, cur, order);
            && !r.Emit?
            && (r.Fail? <==> forall k :: cur.pos + 2 <= k < |src| ==> !ClosesAt(src, k))
            && (r.Fail? ==> r.error.UnterminatedComment?)
            && (r.Skip? ==> ClosesAt(src, r.next.pos - 2)
                            && forall k :: cur.pos + 2 <= k < r.next.pos - 2 ==> !ClosesAt(src, k))
  {
    var e := BlockBody(src, cur.(pos := cur.pos + 2));
    if e.pos < |src| {
      assert ClosesAt(src, e.pos);
    }
  }

  /** An unterminated block comment reports the line its body scan reached. */
  lemma BlockCommentLine(src: string, cur: Cursor, order: seq<string>)
    requires cur.pos + 1 < |src| && IsOperatorOrder(order)
    requires src[cur.pos] == '/' && src[cur.pos + 1] == '*'
    ensures var r := StepAt(src, cur, order);
            r.Fail? ==> r.error == UnterminatedComment(BlockBody(src, cur.(pos := cur.pos + 2)).line)
  {
    var e := BlockBody(src, cur.(pos := cur.pos + 2));
    assert OpensAt(src, cur.pos, '*') && !OpensAt(src, cur.pos, '/');
    assert SkipComment(src, cur) == if e.pos >= |src| then Fail(UnterminatedComment(e.line), e) else Skip(e.(pos := e.pos + 2));
    assert StepAt(src, cur, order) == SkipComment(src, cur);
  }

  /**
   * An unterminated block comment reports the line the scan reached at the
   * end of the input, not the line the comment opened on.
   */
  lemma UnterminatedCommentLine(order: seq<string>)
    requires IsOperatorOrder(order)
    ensures StepAt("/*\n", Cursor(0, 1, 1), order) == Fail(UnterminatedComment(2), Cursor(3, 2, 1))
  {
    var src := "/*\n";
    assert OpensAt(src, 0, '*');
    assert !ClosesAt(src, 2);
    assert BlockBody(src, Cursor(3, 2, 1)) == Cursor(3, 2, 1);
    assert BlockBody(src, Cursor(2, 1, 1)) == Cursor(3, 2, 1);
  }

  /** An operator token is an operator that occurs at the position, and the scan moves past it. */
  lemma OperatorToken(src: string, cur: Cursor, order: seq<string>)
    requires cur.pos < |src| && IsOperatorOrder(order)
    requires StepAt(src, cur, order).Emit? && StepAt(src, cur, order).tok.kind == Operator
    ensures var r := StepAt(src, cur, order);
            r.tok.value in Operators && IsPrefixAt(r.tok.value, src, cur.pos)
            && r.next.pos == cur.pos + |r.tok.value|
  {
  }

  /** An order that tries every two-character operator before any one-character operator. */
  predicate LongestFirst(order: seq<string>) {
    forall i, j :: 0 <= i < j < |order| ==> |order[i]| >= |order[j]|
  }

  /** Under such an order the operator taken is the longest one that occurs at the position. */
  lemma LongestMatch(src: string, cur: Cursor, order: seq<string>, o: string)
    requires cur.pos < |src| && IsOperatorOrder(order) && LongestFirst(order)
    requires StepAt(src, cur, order).Emit? && StepAt(src, cur, order).tok.kind == Operator
    requires o in Operators && IsPrefixAt(o, src, cur.pos)
    ensures |o| <= |StepAt(src, cur, order).tok.value|
  {
    var k := FirstMatch(order, src, cur.pos, 0);
    assert o in order;
    var j :| 0 <= j < |order| && order[j] == o;
    assert k <= j;
  }

  /** The operators in the order of the operator list, one-character `<` before `<<`. */
  const ListedOrder: seq<string> :=
    ["+", "-", "*", "/", "%", "==", "!=", "<", ">", "<=", ">=", "<<", ">>", "="]

  /** `<<` at `p`. */
  predicate ShiftAt(src: string, p: nat) {
    p + 1 < |src| && src[p] == '<' && src[p + 1] == '<'
  }

  /** Where `<<` occurs, `<` occurs too, and no operator other than `<` and `<<` does. */
  lemma OperatorsAtShift(src: string, p: nat, o: string)
    requires ShiftAt(src, p)
    ensures IsPrefixAt("<", src, p)
    ensures o in Operators && IsPrefixAt(o, src, p) ==> o == "<" || o == "<<"
  {
    assert src[p..p + 1] == [src[p]];
    if o in Operators && IsPrefixAt(o, src, p) {
      assert o[0] == src[p..p + |o|][0] == '<';
      if |o| == 2 {
        assert o[1] == src[p..p + |o|][1] == '<';
      }
    }
  }

  /**
   * The iteration order is not fixed, so longest match is not guaranteed:
   * in an order that tries `<` before `<<`, the input `<<` is scanned as the
   * operator `<` (and another `<` after it).
   */
  lemma ShiftMaySplit(src: string, cur: Cursor, order: seq<string>, i: nat)
    requires ShiftAt(src, cur.pos) && IsOperatorOrder(order)
    requires i < |order| && order[i] == "<" && forall j :: 0 <= j < i ==> order[j] != "<<"
    ensures StepAt(src, cur, order) == Emit(Token(Operator, "<", cur.line, cur.column), cur.(pos := cur.pos + 1))
  {
    var k := FirstMatch(order, src, cur.pos, 0);
    OperatorsAtShift(src, cur.pos, "<");
    assert k <= i;
    assert order[k] in order;
    assert order[k] in Operators;
    OperatorsAtShift(src, cur.pos, order[k]);
    assert order[k] == "<";
    StepAtOperator(src, cur, order);
  }

  /** The order in which the operators are listed is such an order. */
  lemma ListedOrderTriesLessFirst()
    ensures IsOperatorOrder(ListedOrder)
    ensures ListedOrder[7] == "<" && forall j :: 0 <= j < 7 ==> ListedOrder[j] != "<<"
  {
    ListedOrderIsOrder();
  }

  lemma ListedOrderIsOrder()
    ensures IsOperatorOrder(ListedOrder)
  {
    forall o ensures o in ListedOrder <==> o in Operators {
      if o in Operators {
        assert o == ListedOrder[0] || o == ListedOrder[1] || o == ListedOrder[2] || o == ListedOrder[3]
          || o == ListedOrder[4] || o == ListedOrder[5] || o == ListedOrder[6] || o == ListedOrder[7]
          || o == ListedOrder[8] || o == ListedOrder[9] || o == ListedOrder[10] || o == ListedOrder[11]
          || o == ListedOrder[12] || o == ListedOrder[13];
      }
    }
  }

  /** A character that starts no other token goes to the operator rule. */
  lemma StepAtOperator(src: string, cur: Cursor, order: seq<string>)
    requires cur.pos < |src| && IsOperatorOrder(order)
    requires var c := src[cur.pos];
      !IsSpace(c) && !IsWordStart(c) && !Decimal.IsDigit(c) && c != '"' && c != '\''
    requires !OpensAt(src, cur.pos, '/') && !OpensAt(src, cur.pos, '*')
    ensures StepAt(src, cur, order) == OperatorStep(src, cur, order)
  {
  }

  /** A character that starts no token stops the scan with an error naming it and both counters. */
  lemma UnknownCharacter(src: string, cur: Cursor, order: seq<string>)
    requires cur.pos < |src| && IsOperatorOrder(order)
    ensures var c := src[cur.pos];
            var r := StepAt(src, cur, order);
            r.Fail? && r.error.UnknownToken? <==>
              !IsSpace(c) && !IsWordStart(c) && !Decimal.IsDigit(c) && c != '"' && c != '\''
              && c !in Symbols && (forall o :: o in Operators ==> !IsPrefixAt(o, src, cur.pos))
    ensures var r := StepAt(src, cur, order);
            r.Fail? && r.error.UnknownToken? ==>
              r.error == UnknownToken(src[cur.pos], cur.line, cur.column) && r.at == cur
  {
    var c := src[cur.pos];
    var k := FirstMatch(order, src, cur.pos, 0);
    if k == |order| {
      forall o | o in Operators ensures !IsPrefixAt(o, src, cur.pos) {
        assert o in order;
        var j :| 0 <= j < |order| && order[j] == o;
      }
    } else {
      assert order[k] in order;
      assert order[k] in Operators;
    }
    if OpensAt(src, cur.pos, '/') || OpensAt(src, cur.pos, '*') {
      assert IsPrefixAt("/", src, cur.pos) by {
        assert src[cur.pos..cur.pos + 1] == "/";
      }
    }
  }

  /** Tokens are only ever appended: the tokens stored before `tokenize` stay, unchanged, in front. */
  lemma {:induction false} LexAppendsOnly(src: string, cur: Cursor, toks: seq<Token>, order: seq<string>)
    requires cur.pos <= |src| && IsOperatorOrder(order)
    ensures var r := Lex(src, cur, toks, order);
            |toks| <= |r.tokens| && r.tokens[..|toks|] == toks
    decreases |src| - cur.pos
  {
    if cur.pos < |src| {
      match StepAt(src, cur, order)
      case Skip(next) => LexAppendsOnly(src, next, toks, order);
      case Emit(t, next) =>
        LexAppendsOnly(src, next, toks + [t], order);
        assert (toks + [t])[..|toks|] == toks;
      case Fail(_, _) =>
    }
  }

  /** `value` occurs somewhere in `src`. */
  ghost predicate OccursIn(value: string, src: string) {
    exists p: nat :: IsPrefixAt(value, src, p)
  }

  /** Without an error the whole input is consumed. */
  lemma {:induction false} LexConsumesAll(src: string, cur: Cursor, toks: seq<Token>, order: seq<string>)
    requires cur.pos <= |src| && IsOperatorOrder(order)
    requires Lex(src, cur, toks, order).error.None?
    ensures Lex(src, cur, toks, order).at.pos == |src|
    decreases |src| - cur.pos
  {
    if cur.pos < |src| {
      match StepAt(src, cur, order)
      case Skip(next) => LexConsumesAll(src, next, toks, order);
      case Emit(t, next) => LexConsumesAll(src, next, toks + [t], order);
      case Fail(_, _) =>
    }
  }

  /** Every token added has a lexeme taken verbatim from the source. */
  lemma {:induction false} LexemesFromSource(src: string, cur: Cursor, toks: seq<Token>, order: seq<string>)
    requires cur.pos <= |src| && IsOperatorOrder(order)
    ensures var r := Lex(src, cur, toks, order);
            |toks| <= |r.tokens| && forall k :: |toks| <= k < |r.tokens| ==> OccursIn(r.tokens[k].value, src)
    decreases |src| - cur.pos
  {
    LexAppendsOnly(src, cur, toks, order);
    if cur.pos < |src| {
      match StepAt(src, cur, order)
      case Skip(next) => LexemesFromSource(src, next, toks, order);
      case Emit(t, next) =>
        EmittedOccurs(src, cur, order);
        LexemesFromSource(src, next, toks + [t], order);
        LexAppendsOnly(src, next, toks + [t], order);
        OccursAfter(Lex(src, next, toks + [t], order).tokens, toks, t, src);
      case Fail(_, _) =>
    }
  }

  /** The lexeme of an emitted token occurs in the source. */
  lemma EmittedOccurs(src: string, cur: Cursor, order: seq<string>)
    requires cur.pos < |src| && IsOperatorOrder(order) && StepAt(src, cur, order).Emit?
    ensures OccursIn(StepAt(src, cur, order).tok.value, src)
  {
    assert IsPrefixAt(StepAt(src, cur, order).tok.value, src, cur.pos);
  }

  /** Extending the occurrence property by one token in front. */
  lemma OccursAfter(ts: seq<Token>, toks: seq<Token>, t: Token, src: string)
    requires |toks| + 1 <= |ts| && ts[..|toks| + 1] == toks + [t] && OccursIn(t.value, src)
    requires forall k :: |toks| + 1 <= k < |ts| ==> OccursIn(ts[k].value, src)
    ensures forall k :: |toks| <= k < |ts| ==> OccursIn(ts[k].value, src)
  {
    assert ts[|toks|] == ts[..|toks| + 1][|toks|] == t;
  }
}
