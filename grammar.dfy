/**
 * The language the recogniser accepts, given independently as a syntax tree
 * and a printer from trees to token signatures.  The two lemmas at the end
 * show that `Program` accepts a token sequence exactly when it begins with
 * the print of a well-formed tree, and that it stops right after that print.
 */
module Grammar {
  import opened Wrappers
  import opened Lexer
  import opened Parsing

  /** A token without its position. */
  datatype Sig = Sig(kind: TokenKind, value: string)

  function SigOf(t: Token): Sig {
    Sig(t.kind, t.value)
  }

  /** The tokens from `pos` on begin with the signatures `sigs`. */
  predicate Fits(toks: seq<Token>, pos: nat, sigs: seq<Sig>): (b: bool)
    ensures b ==> pos + |sigs| <= |toks|
    decreases |sigs|
  {
    if sigs == [] then pos <= |toks|
    else pos < |toks| && SigOf(toks[pos]) == sigs[0] && Fits(toks, pos + 1, sigs[1..])
  }

  // ------------------------------------------------------------ syntax trees

  datatype Operand = Operand(kind: TokenKind, text: string)
  /** An operator and the operand after it. */
  datatype Link = Link(op: string, operand: Operand)
  datatype Expr = Expr(first: Operand, rest: seq<Link>)

  /** A statement; `elseBody` is empty unless `hasElse`. */
  datatype Stmt =
    | Decl(storage: string, name: string, init: Option<Expr>)
    | Out(value: Expr)
    | In(name: string)
    | If(cond: Expr, thenBody: seq<Stmt>, hasElse: bool, elseBody: seq<Stmt>)

  predicate WFTail(rest: seq<Link>) {
    forall k :: 0 <= k < |rest| ==> IsLaterOperand(rest[k].operand.kind)
  }

  predicate WFExpr(e: Expr) {
    IsFirstOperand(e.first.kind) && WFTail(e.rest)
  }

  predicate WFStmt(s: Stmt) {
    match s
    case Decl(storage, _, init) => storage in StorageKeywords && (init.Some? ==> WFExpr(init.value))
    case Out(value) => WFExpr(value)
    case In(_) => true
    case If(cond, thenBody, hasElse, elseBody) =>
      WFExpr(cond) && WFStmts(thenBody) && WFStmts(elseBody) && (!hasElse ==> elseBody == [])
  }

  predicate WFStmts(ss: seq<Stmt>) {
    forall k :: 0 <= k < |ss| ==> WFStmt(ss[k])
  }

  // ------------------------------------------------------------ printing

  // Each print is written as a chain of `[sig] + rest`, so that the proofs
  // below can take it apart one token at a time.

  function PrintTail(rest: seq<Link>): seq<Sig> {
    if rest == [] then []
    else [Sig(Operator, rest[0].op)] + ([Sig(rest[0].operand.kind, rest[0].operand.text)] + PrintTail(rest[1..]))
  }

  function PrintExpr(e: Expr): seq<Sig> {
    [Sig(e.first.kind, e.first.text)] + PrintTail(e.rest)
  }

  const Semicolon := Sig(Symbol, ";")
  const OpenBrace := Sig(Symbol, "{")
  const CloseBrace := Sig(Symbol, "}")
  const Less := Sig(Operator, "<")

  function PrintStmt(s: Stmt): (r: seq<Sig>)
    ensures |r| > 0 && r[0].kind == Keyword
    decreases s, 0
  {
    match s
    case Decl(storage, name, None) => [Sig(Keyword, storage)] + ([Sig(Identifier, name)] + [Semicolon])
    case Decl(storage, name, Some(e)) =>
      [Sig(Keyword, storage)] + ([Sig(Identifier, name)] + ([Sig(Operator, "=")] + (PrintExpr(e) + [Semicolon])))
    case Out(e) => [Sig(Keyword, "out")] + ([Less] + ([Less] + (PrintExpr(e) + [Semicolon])))
    case In(name) => [Sig(Keyword, "in")] + ([Sig(Operator, ">>")] + ([Sig(Identifier, name)] + [Semicolon]))
    case If(cond, thenBody, hasElse, elseBody) =>
      [Sig(Keyword, "if")] + (PrintExpr(cond) + ([OpenBrace] + (PrintStmts(thenBody) + ([CloseBrace] + PrintElse(hasElse, elseBody)))))
  }

  function PrintElse(hasElse: bool, body: seq<Stmt>): seq<Sig>
    decreases body, 1
  {
    if hasElse then [Sig(Keyword, "else")] + ([OpenBrace] + (PrintStmts(body) + [CloseBrace])) else []
  }

  function PrintStmts(ss: seq<Stmt>): seq<Sig>
    decreases ss, 0
  {
    if ss == [] then [] else PrintStmt(ss[0]) + PrintStmts(ss[1..])
  }

  function PrintProgram(body: seq<Stmt>): seq<Sig> {
    [Sig(Keyword, "start")] + ([OpenBrace] + (PrintStmts(body) + ([Sig(Keyword, "close")] + [CloseBrace])))
  }

  /** The tokens that end a statement list: `}` and `close`. */
  predicate IsCloser(kind: TokenKind, value: string) {
    (kind == Symbol && value == "}") || (kind == Keyword && value == "close")
  }

  // ------------------------------------------------------------ signatures

  /** The first signature and the rest, one token at a time. */
  lemma FitsCons(toks: seq<Token>, pos: nat, s: Sig, rest: seq<Sig>)
    ensures Fits(toks, pos, [s] + rest) <==> pos < |toks| && SigOf(toks[pos]) == s && Fits(toks, pos + 1, rest)
  {
    assert ([s] + rest)[1..] == rest;
  }

  /** A single signature. */
  lemma FitsOne(toks: seq<Token>, pos: nat, s: Sig)
    ensures Fits(toks, pos, [s]) <==> pos < |toks| && SigOf(toks[pos]) == s
  {
    assert [s][1..] == [];
  }

  /** `Fits` of a concatenation is `Fits` of its parts. */
  lemma {:induction false} FitsAppend(toks: seq<Token>, pos: nat, a: seq<Sig>, b: seq<Sig>)
    ensures Fits(toks, pos, a + b) <==> Fits(toks, pos, a) && Fits(toks, pos + |a|, b)
    decreases |a|
  {
    if a == [] {
      assert a + b == b;
    } else {
      assert a + b == [a[0]] + (a[1..] + b);
      assert a == [a[0]] + a[1..];
      FitsCons(toks, pos, a[0], a[1..] + b);
      FitsCons(toks, pos, a[0], a[1..]);
      FitsAppend(toks, pos + 1, a[1..], b);
    }
  }

  /** The token at `pos + i` has the `i`-th signature. */
  lemma {:induction false} FitsAt(toks: seq<Token>, pos: nat, sigs: seq<Sig>, i: nat)
    requires Fits(toks, pos, sigs) && i < |sigs|
    ensures pos + i < |toks| && SigOf(toks[pos + i]) == sigs[i]
    decreases i
  {
    if i > 0 {
      FitsAt(toks, pos + 1, sigs[1..], i - 1);
    }
  }

  /** Tokens appended at the end do not disturb a fit. */
  lemma {:induction false} FitsExtend(toks: seq<Token>, more: seq<Token>, pos: nat, sigs: seq<Sig>)
    requires Fits(toks, pos, sigs)
    ensures Fits(toks + more, pos, sigs)
    decreases |sigs|
  {
    if sigs != [] {
      FitsExtend(toks, more, pos + 1, sigs[1..]);
    }
  }

  lemma PrintStmtsCons(ss: seq<Stmt>, after: seq<Sig>)
    requires ss != []
    ensures PrintStmts(ss) + after == PrintStmt(ss[0]) + (PrintStmts(ss[1..]) + after)
  {
  }

  lemma WFStmtsTail(ss: seq<Stmt>)
    requires ss != [] && WFStmts(ss)
    ensures WFStmt(ss[0]) && WFStmts(ss[1..])
  {
    assert WFStmt(ss[0]);
    forall k | 0 <= k < |ss[1..]| ensures WFStmt(ss[1..][k]) {
      assert ss[1..][k] == ss[k + 1];
    }
  }

  // ------------------------------------------------------------ parser steps

  /** A printed well-formed statement starts with a keyword that is neither a closer nor `else`. */
  lemma HeadIsNotCloser(toks: seq<Token>, pos: nat, s: Stmt, kind: TokenKind, value: string)
    requires WFStmt(s) && Fits(toks, pos, PrintStmt(s)) && IsCloser(kind, value)
    ensures !Matches(toks, pos, kind, value) && !Matches(toks, pos, Keyword, "else")
  {
    FitsAt(toks, pos, PrintStmt(s), 0);
    assert toks[pos].value in StatementKeywords;
  }

  /** A closer is not `else`. */
  lemma CloserIsNotElse(toks: seq<Token>, pos: nat, kind: TokenKind, value: string)
    requires IsCloser(kind, value) && Matches(toks, pos, kind, value)
    ensures !Matches(toks, pos, Keyword, "else")
  {
  }

  /** One turn of the statement loop. */
  lemma BlockStep(toks: seq<Token>, pos: nat, kind: TokenKind, value: string)
    requires pos <= |toks| && !Matches(toks, pos, kind, value) && Statement(toks, pos).Ok?
    ensures Block(toks, pos, kind, value) == Block(toks, Statement(toks, pos).end, kind, value)
  {
  }

  /** One turn of the statement loop, followed by the rest of the loop. */
  lemma BlockStepOk(toks: seq<Token>, pos: nat, q: nat, r: nat, kind: TokenKind, value: string)
    requires pos <= |toks| && !Matches(toks, pos, kind, value) && Statement(toks, pos) == Ok(q)
    requires Block(toks, q, kind, value) == Ok(r)
    ensures Block(toks, pos, kind, value) == Ok(r)
  {
    BlockStep(toks, pos, kind, value);
  }

  lemma StatementIf(toks: seq<Token>, pos: nat)
    requires Matches(toks, pos, Keyword, "if")
    ensures Statement(toks, pos) == IfStatement(toks, pos + 1)
  {
  }

  /** How an accepted `if` statement decomposes: the condition ends at `q`, the first block at `b`, the whole at `e`. */
  lemma IfParts(toks: seq<Token>, pos: nat) returns (q: nat, b: nat, hasElse: bool, e: nat)
    requires pos <= |toks| && IfStatement(toks, pos).Ok?
    ensures Expression(toks, pos) == Ok(q) && Matches(toks, q, Symbol, "{")
    ensures Block(toks, q + 1, Symbol, "}") == Ok(b)
    ensures hasElse == Matches(toks, b, Keyword, "else")
    ensures hasElse ==> Matches(toks, b + 1, Symbol, "{") && Block(toks, b + 2, Symbol, "}") == Ok(e)
    ensures !hasElse ==> e == b
    ensures IfStatement(toks, pos) == Ok(e)
  {
    q := Expression(toks, pos).end;
    b := Block(toks, q + 1, Symbol, "}").end;
    hasElse := Matches(toks, b, Keyword, "else");
    e := IfStatement(toks, pos).end;
  }

  /** An `if` statement assembled from its parts. */
  lemma IfAssembled(toks: seq<Token>, pos: nat, q: nat, b: nat)
    requires pos <= |toks| && Expression(toks, pos) == Ok(q)
    requires Matches(toks, q, Symbol, "{") && Block(toks, q + 1, Symbol, "}") == Ok(b)
    ensures !Matches(toks, b, Keyword, "else") ==> IfStatement(toks, pos) == Ok(b)
    ensures Matches(toks, b, Keyword, "else") && Matches(toks, b + 1, Symbol, "{") ==>
      IfStatement(toks, pos) == Block(toks, b + 2, Symbol, "}")
  {
  }

  // ------------------------------------------------------------ completeness

  lemma {:induction false} TailComplete(toks: seq<Token>, pos: nat, rest: seq<Link>, after: seq<Sig>)
    requires WFTail(rest) && Fits(toks, pos, PrintTail(rest) + after)
    requires |after| > 0 && after[0].kind == Symbol
    ensures ExprTail(toks, pos) == Ok(pos + |PrintTail(rest)|)
    decreases |rest|
  {
    FitsAppend(toks, pos, PrintTail(rest), after);
    FitsAt(toks, pos + |PrintTail(rest)|, after, 0);
    if rest != [] {
      var op := Sig(Operator, rest[0].op);
      var operand := Sig(rest[0].operand.kind, rest[0].operand.text);
      FitsCons(toks, pos, op, [operand] + PrintTail(rest[1..]));
      FitsCons(toks, pos + 1, operand, PrintTail(rest[1..]));
      FitsAppend(toks, pos + 2, PrintTail(rest[1..]), after);
      TailComplete(toks, pos + 2, rest[1..], after);
    }
  }

  /** An expression followed by a symbol (`;` or `{`), which no operator can extend. */
  lemma ExprComplete(toks: seq<Token>, pos: nat, e: Expr, after: seq<Sig>)
    requires WFExpr(e) && Fits(toks, pos, PrintExpr(e) + after)
    requires |after| > 0 && after[0].kind == Symbol
    ensures Expression(toks, pos) == Ok(pos + |PrintExpr(e)|)
    ensures Fits(toks, pos + |PrintExpr(e)|, after)
  {
    FitsAppend(toks, pos, PrintExpr(e), after);
    FitsCons(toks, pos, Sig(e.first.kind, e.first.text), PrintTail(e.rest));
    FitsAppend(toks, pos + 1, PrintTail(e.rest), after);
    TailComplete(toks, pos + 1, e.rest, after);
  }

  lemma DeclComplete(toks: seq<Token>, pos: nat, storage: string, name: string)
    requires storage in StorageKeywords && Fits(toks, pos, PrintStmt(Decl(storage, name, None)))
    ensures Statement(toks, pos) == Ok(pos + 3)
  {
    FitsCons(toks, pos, Sig(Keyword, storage), [Sig(Identifier, name)] + [Semicolon]);
    FitsCons(toks, pos + 1, Sig(Identifier, name), [Semicolon]);
    FitsOne(toks, pos + 2, Semicolon);
    assert VarDecl(toks, pos + 1) == Ok(pos + 3);
  }

  lemma InitDeclComplete(toks: seq<Token>, pos: nat, storage: string, name: string, e: Expr)
    requires storage in StorageKeywords && WFExpr(e) && Fits(toks, pos, PrintStmt(Decl(storage, name, Some(e))))
    ensures Statement(toks, pos) == Ok(pos + 4 + |PrintExpr(e)|)
  {
    var eq := Sig(Operator, "=");
    FitsCons(toks, pos, Sig(Keyword, storage), [Sig(Identifier, name)] + ([eq] + (PrintExpr(e) + [Semicolon])));
    FitsCons(toks, pos + 1, Sig(Identifier, name), [eq] + (PrintExpr(e) + [Semicolon]));
    FitsCons(toks, pos + 2, eq, PrintExpr(e) + [Semicolon]);
    ExprComplete(toks, pos + 3, e, [Semicolon]);
    FitsOne(toks, pos + 3 + |PrintExpr(e)|, Semicolon);
    assert VarDecl(toks, pos + 1) == Ok(pos + 4 + |PrintExpr(e)|);
  }

  lemma OutComplete(toks: seq<Token>, pos: nat, e: Expr)
    requires WFExpr(e) && Fits(toks, pos, PrintStmt(Out(e)))
    ensures Statement(toks, pos) == Ok(pos + 4 + |PrintExpr(e)|)
  {
    FitsCons(toks, pos, Sig(Keyword, "out"), [Less] + ([Less] + (PrintExpr(e) + [Semicolon])));
    FitsCons(toks, pos + 1, Less, [Less] + (PrintExpr(e) + [Semicolon]));
    FitsCons(toks, pos + 2, Less, PrintExpr(e) + [Semicolon]);
    ExprComplete(toks, pos + 3, e, [Semicolon]);
    FitsOne(toks, pos + 3 + |PrintExpr(e)|, Semicolon);
    OutAccepted(toks, pos, pos + 3 + |PrintExpr(e)|);
  }

  /** The parser's side of an output statement: `out`, two `<`, an expression ending at `q`, and `;`. */
  lemma OutAccepted(toks: seq<Token>, pos: nat, q: nat)
    requires pos + 3 <= |toks| && Matches(toks, pos, Keyword, "out")
    requires Matches(toks, pos + 1, Operator, "<") && Matches(toks, pos + 2, Operator, "<")
    requires Expression(toks, pos + 3) == Ok(q) && Matches(toks, q, Symbol, ";")
    ensures Statement(toks, pos) == Ok(q + 1)
  {
    assert Output(toks, pos + 1) == Ok(q + 1);
  }

  lemma InComplete(toks: seq<Token>, pos: nat, name: string)
    requires Fits(toks, pos, PrintStmt(In(name)))
    ensures Statement(toks, pos) == Ok(pos + 4)
  {
    var shift := Sig(Operator, ">>");
    FitsCons(toks, pos, Sig(Keyword, "in"), [shift] + ([Sig(Identifier, name)] + [Semicolon]));
    FitsCons(toks, pos + 1, shift, [Sig(Identifier, name)] + [Semicolon]);
    FitsCons(toks, pos + 2, Sig(Identifier, name), [Semicolon]);
    FitsOne(toks, pos + 3, Semicolon);
    assert Input(toks, pos + 1) == Ok(pos + 4);
  }

  /** A printed statement in front of a token that is not `else`. */
  lemma {:induction false} StmtComplete(toks: seq<Token>, pos: nat, s: Stmt)
    requires WFStmt(s) && Fits(toks, pos, PrintStmt(s))
    requires !Matches(toks, pos + |PrintStmt(s)|, Keyword, "else")
    ensures Statement(toks, pos) == Ok(pos + |PrintStmt(s)|)
    decreases s, 2
  {
    match s
    case Decl(storage, name, init) =>
      if init.Some? {
        InitDeclComplete(toks, pos, storage, name, init.value);
      } else {
        DeclComplete(toks, pos, storage, name);
      }
    case Out(e) => OutComplete(toks, pos, e);
    case In(name) => InComplete(toks, pos, name);
    case If(cond, thenBody, hasElse, elseBody) =>
      IfComplete(toks, pos, cond, thenBody, hasElse, elseBody);
      StatementIf(toks, pos);
  }

  /** An `if` statement in front of a token that is not `else`. */
  lemma {:induction false} IfComplete(toks: seq<Token>, pos: nat, cond: Expr, thenBody: seq<Stmt>, hasElse: bool, elseBody: seq<Stmt>)
    requires WFStmt(If(cond, thenBody, hasElse, elseBody)) && Fits(toks, pos, PrintStmt(If(cond, thenBody, hasElse, elseBody)))
    requires !Matches(toks, pos + |PrintStmt(If(cond, thenBody, hasElse, elseBody))|, Keyword, "else")
    ensures IfStatement(toks, pos + 1) == Ok(pos + |PrintStmt(If(cond, thenBody, hasElse, elseBody))|)
    decreases If(cond, thenBody, hasElse, elseBody), 1
  {
    var elsePart := PrintElse(hasElse, elseBody);
    IfShape(cond, thenBody, hasElse, elseBody);
    FitsCons(toks, pos, Sig(Keyword, "if"), PrintExpr(cond) + ([OpenBrace] + (PrintStmts(thenBody) + ([CloseBrace] + elsePart))));
    var q, b := IfThenComplete(toks, pos + 1, cond, thenBody, elsePart);
    if hasElse {
      ElseComplete(toks, b + 1, elseBody);
    }
    IfAssembled(toks, pos + 1, q, b + 1);
  }

  /** The print of an `if` statement and its length. */
  lemma IfShape(cond: Expr, thenBody: seq<Stmt>, hasElse: bool, elseBody: seq<Stmt>)
    ensures PrintStmt(If(cond, thenBody, hasElse, elseBody)) ==
      [Sig(Keyword, "if")] + (PrintExpr(cond) + ([OpenBrace] + (PrintStmts(thenBody) + ([CloseBrace] + PrintElse(hasElse, elseBody)))))
    ensures |PrintStmt(If(cond, thenBody, hasElse, elseBody))| ==
      3 + |PrintExpr(cond)| + |PrintStmts(thenBody)| + |PrintElse(hasElse, elseBody)|
  {
  }

  /** The condition and the braced block of an `if` statement; `b` is the position of its `}`. */
  lemma {:induction false} IfThenComplete(toks: seq<Token>, pos: nat, cond: Expr, thenBody: seq<Stmt>, after: seq<Sig>)
    returns (q: nat, b: nat)
    requires WFExpr(cond) && WFStmts(thenBody)
    requires Fits(toks, pos, PrintExpr(cond) + ([OpenBrace] + (PrintStmts(thenBody) + ([CloseBrace] + after))))
    ensures Expression(toks, pos) == Ok(q) && Matches(toks, q, Symbol, "{")
    ensures Block(toks, q + 1, Symbol, "}") == Ok(b + 1)
    ensures Fits(toks, b + 1, after)
    ensures b == pos + |PrintExpr(cond)| + 1 + |PrintStmts(thenBody)|
    decreases thenBody, 3
  {
    var thenPart := PrintStmts(thenBody) + ([CloseBrace] + after);
    ExprComplete(toks, pos, cond, [OpenBrace] + thenPart);
    q := pos + |PrintExpr(cond)|;
    ThenPartFits(toks, q, thenBody, after);
    BlockComplete(toks, q + 1, thenBody, Symbol, "}", [CloseBrace] + after);
    b := q + 1 + |PrintStmts(thenBody)|;
  }

  /** `{`, a statement list, `}` and what follows. */
  lemma ThenPartFits(toks: seq<Token>, q: nat, thenBody: seq<Stmt>, after: seq<Sig>)
    requires Fits(toks, q, [OpenBrace] + (PrintStmts(thenBody) + ([CloseBrace] + after)))
    ensures Matches(toks, q, Symbol, "{") && Fits(toks, q + 1, PrintStmts(thenBody) + ([CloseBrace] + after))
    ensures Fits(toks, q + 1 + |PrintStmts(thenBody)| + 1, after)
  {
    var thenPart := PrintStmts(thenBody) + ([CloseBrace] + after);
    FitsCons(toks, q, OpenBrace, thenPart);
    FitsAppend(toks, q + 1, PrintStmts(thenBody), [CloseBrace] + after);
    FitsCons(toks, q + 1 + |PrintStmts(thenBody)|, CloseBrace, after);
  }

  /** `else`, `{`, a statement list and `}`. */
  lemma {:induction false} ElseComplete(toks: seq<Token>, pos: nat, body: seq<Stmt>)
    requires WFStmts(body) && Fits(toks, pos, PrintElse(true, body))
    ensures Matches(toks, pos, Keyword, "else") && Matches(toks, pos + 1, Symbol, "{")
    ensures Block(toks, pos + 2, Symbol, "}") == Ok(pos + |PrintElse(true, body)|)
    decreases body, 3
  {
    var inner := PrintStmts(body) + [CloseBrace];
    FitsCons(toks, pos, Sig(Keyword, "else"), [OpenBrace] + inner);
    FitsCons(toks, pos + 1, OpenBrace, inner);
    BlockComplete(toks, pos + 2, body, Symbol, "}", [CloseBrace]);
  }

  /** A statement list followed by its closer and whatever comes after it. */
  lemma {:induction false} BlockComplete(toks: seq<Token>, pos: nat, ss: seq<Stmt>, kind: TokenKind, value: string, after: seq<Sig>)
    requires WFStmts(ss) && IsCloser(kind, value) && Fits(toks, pos, PrintStmts(ss) + after)
    requires |after| > 0 && after[0] == Sig(kind, value)
    ensures Block(toks, pos, kind, value) == Ok(pos + |PrintStmts(ss)| + 1)
    decreases ss, 2
  {
    if ss == [] {
      assert PrintStmts(ss) + after == after;
      FitsAt(toks, pos, after, 0);
    } else {
      var q := BlockHeadFits(toks, pos, ss, kind, value, after);
      StmtComplete(toks, pos, ss[0]);
      BlockComplete(toks, q, ss[1..], kind, value, after);
      BlockStepOk(toks, pos, q, q + |PrintStmts(ss[1..])| + 1, kind, value);
    }
  }

  /** The first statement of a printed list, in front of the rest of the list. */
  lemma BlockHeadFits(toks: seq<Token>, pos: nat, ss: seq<Stmt>, kind: TokenKind, value: string, after: seq<Sig>)
    returns (q: nat)
    requires ss != [] && WFStmts(ss) && IsCloser(kind, value) && Fits(toks, pos, PrintStmts(ss) + after)
    requires |after| > 0 && after[0] == Sig(kind, value)
    ensures q == pos + |PrintStmt(ss[0])| && |PrintStmts(ss)| == |PrintStmt(ss[0])| + |PrintStmts(ss[1..])|
    ensures WFStmt(ss[0]) && WFStmts(ss[1..]) && Fits(toks, pos, PrintStmt(ss[0]))
    ensures Fits(toks, q, PrintStmts(ss[1..]) + after)
    ensures pos <= |toks| && !Matches(toks, pos, kind, value) && !Matches(toks, q, Keyword, "else")
  {
    PrintStmtsCons(ss, after);
    WFStmtsTail(ss);
    var rest := PrintStmts(ss[1..]) + after;
    FitsAppend(toks, pos, PrintStmt(ss[0]), rest);
    q := pos + |PrintStmt(ss[0])|;
    if ss[1..] != [] {
      PrintStmtsCons(ss[1..], after);
      FitsAppend(toks, q, PrintStmt(ss[1..][0]), PrintStmts(ss[1..][1..]) + after);
      HeadIsNotCloser(toks, q, ss[1..][0], kind, value);
    } else {
      assert rest == after;
      FitsAt(toks, q, after, 0);
      CloserIsNotElse(toks, q, kind, value);
    }
    HeadIsNotCloser(toks, pos, ss[0], kind, value);
    FitsAt(toks, pos, PrintStmt(ss[0]), 0);
  }

  /** Every token sequence that begins with a printed program is accepted, up to the end of that print. */
  lemma ProgramComplete(toks: seq<Token>, body: seq<Stmt>)
    requires WFStmts(body) && Fits(toks, 0, PrintProgram(body))
    ensures Program(toks, 0) == Ok(|PrintProgram(body)|)
  {
    var close := Sig(Keyword, "close");
    FitsCons(toks, 0, Sig(Keyword, "start"), [OpenBrace] + (PrintStmts(body) + ([close] + [CloseBrace])));
    FitsCons(toks, 1, OpenBrace, PrintStmts(body) + ([close] + [CloseBrace]));
    BlockComplete(toks, 2, body, Keyword, "close", [close] + [CloseBrace]);
    FitsAppend(toks, 2, PrintStmts(body), [close] + [CloseBrace]);
    FitsCons(toks, 2 + |PrintStmts(body)|, close, [CloseBrace]);
    FitsOne(toks, 3 + |PrintStmts(body)|, CloseBrace);
  }

  // ------------------------------------------------------------ soundness

  lemma {:induction false} TailSound(toks: seq<Token>, pos: nat) returns (rest: seq<Link>)
    requires pos <= |toks| && ExprTail(toks, pos).Ok?
    ensures WFTail(rest) && Fits(toks, pos, PrintTail(rest))
    ensures ExprTail(toks, pos).end == pos + |PrintTail(rest)|
    decreases |toks| - pos
  {
    if Matches(toks, pos, Operator, "") {
      var more := TailSound(toks, pos + 2);
      rest := [Link(toks[pos].value, Operand(toks[pos + 1].kind, toks[pos + 1].value))] + more;
      assert rest[1..] == more;
      FitsCons(toks, pos + 1, SigOf(toks[pos + 1]), PrintTail(more));
      FitsCons(toks, pos, SigOf(toks[pos]), [SigOf(toks[pos + 1])] + PrintTail(more));
    } else {
      rest := [];
    }
  }

  lemma ExprSound(toks: seq<Token>, pos: nat) returns (e: Expr)
    requires pos <= |toks| && Expression(toks, pos).Ok?
    ensures WFExpr(e) && Fits(toks, pos, PrintExpr(e))
    ensures Expression(toks, pos).end == pos + |PrintExpr(e)|
  {
    var rest := TailSound(toks, pos + 1);
    e := Expr(Operand(toks[pos].kind, toks[pos].value), rest);
    FitsCons(toks, pos, SigOf(toks[pos]), PrintTail(rest));
  }

  /** An expression and the token after it. */
  lemma ExprThen(toks: seq<Token>, pos: nat, s: Sig) returns (e: Expr)
    requires pos <= |toks| && Expression(toks, pos).Ok?
    requires Expression(toks, pos).end < |toks| && SigOf(toks[Expression(toks, pos).end]) == s
    ensures WFExpr(e) && Fits(toks, pos, PrintExpr(e) + [s])
    ensures Expression(toks, pos) == Ok(pos + |PrintExpr(e)|)
  {
    e := ExprSound(toks, pos);
    FitsOne(toks, pos + |PrintExpr(e)|, s);
    FitsAppend(toks, pos, PrintExpr(e), [s]);
  }

  lemma DeclSound(toks: seq<Token>, pos: nat) returns (s: Stmt)
    requires pos < |toks| && toks[pos].kind == Keyword && toks[pos].value in StorageKeywords
    requires VarDecl(toks, pos + 1).Ok? && !Matches(toks, pos + 2, Operator, "=")
    ensures s.Decl? && WFStmt(s) && Fits(toks, pos, PrintStmt(s))
    ensures VarDecl(toks, pos + 1).end == pos + |PrintStmt(s)|
  {
    s := Decl(toks[pos].value, toks[pos + 1].value, None);
    FitsOne(toks, pos + 2, Semicolon);
    FitsCons(toks, pos + 1, SigOf(toks[pos + 1]), [Semicolon]);
    FitsCons(toks, pos, SigOf(toks[pos]), [SigOf(toks[pos + 1])] + [Semicolon]);
  }

  lemma InitDeclSound(toks: seq<Token>, pos: nat) returns (s: Stmt)
    requires pos < |toks| && toks[pos].kind == Keyword && toks[pos].value in StorageKeywords
    requires VarDecl(toks, pos + 1).Ok? && Matches(toks, pos + 2, Operator, "=")
    ensures s.Decl? && WFStmt(s) && Fits(toks, pos, PrintStmt(s))
    ensures VarDecl(toks, pos + 1).end == pos + |PrintStmt(s)|
  {
    var e := ExprThen(toks, pos + 3, Semicolon);
    s := Decl(toks[pos].value, toks[pos + 1].value, Some(e));
    var eq := Sig(Operator, "=");
    FitsCons(toks, pos + 2, eq, PrintExpr(e) + [Semicolon]);
    FitsCons(toks, pos + 1, SigOf(toks[pos + 1]), [eq] + (PrintExpr(e) + [Semicolon]));
    FitsCons(toks, pos, SigOf(toks[pos]), [SigOf(toks[pos + 1])] + ([eq] + (PrintExpr(e) + [Semicolon])));
  }

  lemma OutSound(toks: seq<Token>, pos: nat) returns (s: Stmt)
    requires Matches(toks, pos, Keyword, "out") && Output(toks, pos + 1).Ok?
    ensures s.Out? && WFStmt(s) && Fits(toks, pos, PrintStmt(s))
    ensures Output(toks, pos + 1).end == pos + |PrintStmt(s)|
  {
    var e := ExprThen(toks, pos + 3, Semicolon);
    s := Out(e);
    FitsCons(toks, pos + 2, Less, PrintExpr(e) + [Semicolon]);
    FitsCons(toks, pos + 1, Less, [Less] + (PrintExpr(e) + [Semicolon]));
    FitsCons(toks, pos, Sig(Keyword, "out"), [Less] + ([Less] + (PrintExpr(e) + [Semicolon])));
  }

  lemma InSound(toks: seq<Token>, pos: nat) returns (s: Stmt)
    requires Matches(toks, pos, Keyword, "in") && Input(toks, pos + 1).Ok?
    ensures s.In? && Fits(toks, pos, PrintStmt(s))
    ensures Input(toks, pos + 1).end == pos + |PrintStmt(s)|
  {
    s := In(toks[pos + 2].value);
    var shift := Sig(Operator, ">>");
    var id := SigOf(toks[pos + 2]);
    FitsOne(toks, pos + 3, Semicolon);
    FitsCons(toks, pos + 2, id, [Semicolon]);
    FitsCons(toks, pos + 1, shift, [id] + [Semicolon]);
    FitsCons(toks, pos, Sig(Keyword, "in"), [shift] + ([id] + [Semicolon]));
  }

  lemma {:induction false} StmtSound(toks: seq<Token>, pos: nat) returns (s: Stmt)
    requires pos <= |toks| && Statement(toks, pos).Ok?
    ensures WFStmt(s) && Fits(toks, pos, PrintStmt(s))
    ensures Statement(toks, pos).end == pos + |PrintStmt(s)|
    decreases |toks| - pos, 2
  {
    if pos < |toks| && toks[pos].kind == Keyword && toks[pos].value in StorageKeywords {
      if Matches(toks, pos + 2, Operator, "=") {
        s := InitDeclSound(toks, pos);
      } else {
        s := DeclSound(toks, pos);
      }
    } else if Matches(toks, pos, Keyword, "out") {
      s := OutSound(toks, pos);
    } else if Matches(toks, pos, Keyword, "in") {
      s := InSound(toks, pos);
    } else {
      s := IfSound(toks, pos);
    }
  }

  /** An accepted `if` statement. */
  lemma {:induction false} IfSound(toks: seq<Token>, pos: nat) returns (s: Stmt)
    requires Matches(toks, pos, Keyword, "if") && IfStatement(toks, pos + 1).Ok?
    ensures s.If? && WFStmt(s) && Fits(toks, pos, PrintStmt(s))
    ensures IfStatement(toks, pos + 1).end == pos + |PrintStmt(s)|
    decreases |toks| - pos, 1
  {
    var q, b, hasElse, e := IfParts(toks, pos + 1);
    s := IfSoundParts(toks, pos, q, b, hasElse, e);
  }

  /** An `if` statement from its accepted parts. */
  lemma {:induction false} IfSoundParts(toks: seq<Token>, pos: nat, q: nat, b: nat, hasElse: bool, e: nat) returns (s: Stmt)
    requires Matches(toks, pos, Keyword, "if")
    requires Expression(toks, pos + 1) == Ok(q) && Matches(toks, q, Symbol, "{")
    requires Block(toks, q + 1, Symbol, "}") == Ok(b)
    requires hasElse ==> Matches(toks, b, Keyword, "else") && Matches(toks, b + 1, Symbol, "{")
    requires hasElse ==> Block(toks, b + 2, Symbol, "}") == Ok(e)
    requires !hasElse ==> e == b
    ensures s.If? && WFStmt(s) && Fits(toks, pos, PrintStmt(s))
    ensures e == pos + |PrintStmt(s)|
    decreases |toks| - pos, 0
  {
    var cond, thenBody := ThenSound(toks, pos + 1, q, b);
    var elseBody := ElseSound(toks, b, hasElse, e);
    s := IfFits(toks, pos, b, e, cond, thenBody, hasElse, elseBody);
  }

  /** An accepted condition and braced block. */
  lemma {:induction false} ThenSound(toks: seq<Token>, p: nat, q: nat, b: nat) returns (cond: Expr, thenBody: seq<Stmt>)
    requires p <= |toks| && Expression(toks, p) == Ok(q) && Matches(toks, q, Symbol, "{")
    requires Block(toks, q + 1, Symbol, "}") == Ok(b)
    ensures WFExpr(cond) && WFStmts(thenBody)
    ensures Fits(toks, p, PrintExpr(cond) + [OpenBrace])
    ensures Fits(toks, p + |PrintExpr(cond)| + 1, PrintStmts(thenBody) + [CloseBrace])
    ensures b == p + |PrintExpr(cond)| + 2 + |PrintStmts(thenBody)| && b <= |toks|
    decreases |toks| - p, 3
  {
    cond := ExprThen(toks, p, OpenBrace);
    thenBody := BlockSound(toks, q + 1, Symbol, "}");
  }

  /** An accepted `else` part, or none. */
  lemma {:induction false} ElseSound(toks: seq<Token>, b: nat, hasElse: bool, e: nat) returns (body: seq<Stmt>)
    requires hasElse ==> Matches(toks, b, Keyword, "else") && Matches(toks, b + 1, Symbol, "{")
    requires hasElse ==> Block(toks, b + 2, Symbol, "}") == Ok(e)
    requires !hasElse ==> e == b && b <= |toks|
    ensures WFStmts(body) && (!hasElse ==> body == [])
    ensures Fits(toks, b, PrintElse(hasElse, body)) && e == b + |PrintElse(hasElse, body)|
    decreases |toks| - b, 3
  {
    if hasElse {
      body := BlockSound(toks, b + 2, Symbol, "}");
      FitsCons(toks, b + 1, OpenBrace, PrintStmts(body) + [CloseBrace]);
      FitsCons(toks, b, Sig(Keyword, "else"), [OpenBrace] + (PrintStmts(body) + [CloseBrace]));
    } else {
      body := [];
    }
  }

  /** The signatures of an `if` statement, assembled from those of its parts. */
  lemma IfFits(toks: seq<Token>, pos: nat, b: nat, e: nat, cond: Expr, thenBody: seq<Stmt>, hasElse: bool, elseBody: seq<Stmt>)
    returns (s: Stmt)
    requires WFExpr(cond) && WFStmts(thenBody) && WFStmts(elseBody) && (!hasElse ==> elseBody == [])
    requires Matches(toks, pos, Keyword, "if")
    requires Fits(toks, pos + 1, PrintExpr(cond) + [OpenBrace])
    requires Fits(toks, pos + 1 + |PrintExpr(cond)| + 1, PrintStmts(thenBody) + [CloseBrace])
    requires b == pos + 1 + |PrintExpr(cond)| + 2 + |PrintStmts(thenBody)|
    requires Fits(toks, b, PrintElse(hasElse, elseBody)) && e == b + |PrintElse(hasElse, elseBody)|
    ensures s.If? && WFStmt(s) && Fits(toks, pos, PrintStmt(s))
    ensures e == pos + |PrintStmt(s)|
  {
    s := If(cond, thenBody, hasElse, elseBody);
    var elsePart := PrintElse(hasElse, elseBody);
    FitsJoin(toks, pos + 1 + |PrintExpr(cond)| + 1, PrintStmts(thenBody), CloseBrace, elsePart);
    FitsJoin(toks, pos + 1, PrintExpr(cond), OpenBrace, PrintStmts(thenBody) + ([CloseBrace] + elsePart));
    FitsCons(toks, pos, Sig(Keyword, "if"), PrintExpr(cond) + ([OpenBrace] + (PrintStmts(thenBody) + ([CloseBrace] + elsePart))));
    IfShape(cond, thenBody, hasElse, elseBody);
  }

  /** Signatures `a`, then `x`, then `b`. */
  lemma FitsJoin(toks: seq<Token>, pos: nat, a: seq<Sig>, x: Sig, b: seq<Sig>)
    requires Fits(toks, pos, a + [x]) && Fits(toks, pos + |a| + 1, b)
    ensures Fits(toks, pos, a + ([x] + b))
  {
    FitsAppend(toks, pos, a, [x]);
    FitsOne(toks, pos + |a|, x);
    FitsCons(toks, pos + |a|, x, b);
    FitsAppend(toks, pos, a, [x] + b);
  }

  lemma WFStmtsCons(s: Stmt, more: seq<Stmt>, after: seq<Sig>)
    requires WFStmt(s) && WFStmts(more)
    ensures WFStmts([s] + more)
    ensures PrintStmts([s] + more) + after == PrintStmt(s) + (PrintStmts(more) + after)
  {
    var ss := [s] + more;
    assert ss[0] == s && ss[1..] == more;
    forall k | 0 <= k < |ss| ensures WFStmt(ss[k]) {
      if k > 0 {
        assert ss[k] == more[k - 1];
      }
    }
  }

  /** An accepted statement list and its closer. */
  lemma {:induction false} BlockSound(toks: seq<Token>, pos: nat, kind: TokenKind, value: string) returns (ss: seq<Stmt>)
    requires pos <= |toks| && IsCloser(kind, value) && Block(toks, pos, kind, value).Ok?
    ensures WFStmts(ss) && Fits(toks, pos, PrintStmts(ss) + [Sig(kind, value)])
    ensures Block(toks, pos, kind, value) == Ok(pos + |PrintStmts(ss)| + 1)
    decreases |toks| - pos, 4
  {
    if Matches(toks, pos, kind, value) {
      ss := [];
      FitsOne(toks, pos, Sig(kind, value));
      assert PrintStmts(ss) + [Sig(kind, value)] == [Sig(kind, value)];
    } else {
      ss := BlockSoundCons(toks, pos, kind, value);
    }
  }

  /** An accepted statement list that does not start with its closer. */
  lemma {:induction false} BlockSoundCons(toks: seq<Token>, pos: nat, kind: TokenKind, value: string) returns (ss: seq<Stmt>)
    requires pos <= |toks| && IsCloser(kind, value) && Block(toks, pos, kind, value).Ok?
    requires !Matches(toks, pos, kind, value)
    ensures WFStmts(ss) && Fits(toks, pos, PrintStmts(ss) + [Sig(kind, value)])
    ensures Block(toks, pos, kind, value) == Ok(pos + |PrintStmts(ss)| + 1)
    decreases |toks| - pos, 3
  {
    var s := StmtSound(toks, pos);
    BlockStep(toks, pos, kind, value);
    var q := pos + |PrintStmt(s)|;
    var more := BlockSound(toks, q, kind, value);
    ss := [s] + more;
    WFStmtsCons(s, more, [Sig(kind, value)]);
    FitsAppend(toks, pos, PrintStmt(s), PrintStmts(more) + [Sig(kind, value)]);
  }

  /** Every accepted token sequence begins with a printed program, and acceptance ends right after it. */
  lemma ProgramSound(toks: seq<Token>)
    requires Program(toks, 0).Ok?
    ensures exists body :: WFStmts(body) && Fits(toks, 0, PrintProgram(body)) && Program(toks, 0).end == |PrintProgram(body)|
  {
    var body := ProgramParts(toks);
    ProgramFits(toks, body);
  }

  /** The parser's side of an accepted program: `start`, `{`, a block closed by `close`, then `}`. */
  lemma ProgramParts(toks: seq<Token>) returns (body: seq<Stmt>)
    requires Program(toks, 0).Ok?
    ensures WFStmts(body)
    ensures Matches(toks, 0, Keyword, "start") && Matches(toks, 1, Symbol, "{")
    ensures Fits(toks, 2, PrintStmts(body) + [Sig(Keyword, "close")])
    ensures Matches(toks, 3 + |PrintStmts(body)|, Symbol, "}")
    ensures Program(toks, 0).end == |PrintStmts(body)| + 4
  {
    body := BlockSound(toks, 2, Keyword, "close");
  }

  lemma ProgramFits(toks: seq<Token>, body: seq<Stmt>)
    requires Matches(toks, 0, Keyword, "start") && Matches(toks, 1, Symbol, "{")
    requires Fits(toks, 2, PrintStmts(body) + [Sig(Keyword, "close")])
    requires Matches(toks, 3 + |PrintStmts(body)|, Symbol, "}")
    ensures Fits(toks, 0, PrintProgram(body)) && |PrintProgram(body)| == |PrintStmts(body)| + 4
  {
    var close := Sig(Keyword, "close");
    var q := 2 + |PrintStmts(body)|;
    FitsAppend(toks, 2, PrintStmts(body), [close]);
    FitsOne(toks, q + 1, CloseBrace);
    FitsCons(toks, q, close, [CloseBrace]);
    FitsAppend(toks, 2, PrintStmts(body), [close] + [CloseBrace]);
    FitsCons(toks, 1, OpenBrace, PrintStmts(body) + ([close] + [CloseBrace]));
    FitsCons(toks, 0, Sig(Keyword, "start"), [OpenBrace] + (PrintStmts(body) + ([close] + [CloseBrace])));
  }

  // ------------------------------------------------------------ consequences

  /** The recogniser accepts exactly the token sequences that begin with a printed well-formed program. */
  lemma AcceptedLanguage(toks: seq<Token>)
    ensures Program(toks, 0).Ok? <==> exists body :: WFStmts(body) && Fits(toks, 0, PrintProgram(body))
  {
    if Program(toks, 0).Ok? {
      ProgramSound(toks);
    }
    if exists body :: WFStmts(body) && Fits(toks, 0, PrintProgram(body)) {
      var body :| WFStmts(body) && Fits(toks, 0, PrintProgram(body));
      ProgramComplete(toks, body);
    }
  }

  /** Tokens after the closing `}` of an accepted program are never looked at. */
  lemma TrailingTokensIgnored(toks: seq<Token>, more: seq<Token>)
    requires Program(toks, 0).Ok?
    ensures Program(toks + more, 0) == Program(toks, 0)
  {
    ProgramSound(toks);
    var body :| WFStmts(body) && Fits(toks, 0, PrintProgram(body)) && Program(toks, 0).end == |PrintProgram(body)|;
    FitsExtend(toks, more, 0, PrintProgram(body));
    ProgramComplete(toks + more, body);
  }
}
