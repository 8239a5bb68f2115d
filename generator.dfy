/**
 * The emitter: a walk over a statement tree that appends assembly-like text
 * lines to an output stream while it fills a symbol table and draws numbered
 * labels.  Each operation is first given as a function of the emitter state
 * (`GenState`), then as a method of the class `Generator` that changes its
 * fields step by step and is proved to agree with that function.  The
 * properties of the emitter are lemmas about the functions.
 */
module Emitter {
  import opened Wrappers
  import opened Lexer
  import Decimal

  // ------------------------------------------------------------ statement trees

  datatype StatementType = VariableDeclaration | Output | Input | IfStatement | WhileLoop | Expression

  /** A node of the statement tree: its kind, its head tokens and its children. */
  datatype ParsedStatement = ParsedStatement(kind: StatementType, tokens: seq<Token>, children: seq<ParsedStatement>)

  /** The only error the emitter raises: a declaration of an unknown storage kind. */
  datatype EmitError = UnsupportedVariableType(varType: string)

  function ErrorMessage(e: EmitError): string {
    "Unsupported variable type: " + e.varType
  }

  /** The number of nodes in a tree, the measure of the recursive walk. */
  function Size(s: ParsedStatement): nat
    decreases s
  {
    1 + SizeAll(s.children)
  }

  function SizeAll(ss: seq<ParsedStatement>): nat
    decreases ss
  {
    if ss == [] then 0 else Size(ss[0]) + SizeAll(ss[1..])
  }

  /** A declaration reads its first two head tokens without checking that they exist. */
  predicate WellFormed(s: ParsedStatement)
    decreases s
  {
    && (s.kind == VariableDeclaration ==> |s.tokens| >= 2)
    && forall i :: 0 <= i < |s.children| ==> WellFormed(s.children[i])
  }

  predicate AllWellFormed(ss: seq<ParsedStatement>) {
    forall i :: 0 <= i < |ss| ==> WellFormed(ss[i])
  }

  // ------------------------------------------------------------ emitter state

  /**
   * The fields of a generator: the symbol table, the label counter, the lines
   * written so far, and whether the output stream has been closed.
   */
  datatype GenState = GenState(symbols: map<string, string>, labelCounter: nat, lines: seq<string>, closed: bool)

  /** The state reached, and the error that stopped the walk, if any. */
  datatype Emitted = Emitted(st: GenState, err: Option<EmitError>)

  /** Writing one line; a closed stream drops it. */
  function Write(st: GenState, line: string): (r: GenState)
    ensures Grows(st, r)
    ensures r.labelCounter == st.labelCounter && r.symbols == st.symbols
    ensures !st.closed ==> r.lines == st.lines + [line]
  {
    if st.closed then st else st.(lines := st.lines + [line])
  }

  /**
   * What every step of the walk keeps: lines are only appended, the label
   * counter never decreases, names are never removed from the symbol table,
   * and nothing reaches a closed stream.
   */
  predicate Grows(a: GenState, b: GenState) {
    && a.lines <= b.lines
    && a.labelCounter <= b.labelCounter
    && a.symbols.Keys <= b.symbols.Keys
    && b.closed == a.closed
    && (a.closed ==> b.lines == a.lines)
  }

  /** `getLabel`: the base followed by the decimal counter. */
  function Label(base: string, n: nat): string {
    base + Decimal.NatToString(n)
  }

  /** `symbolTable[name]`, which inserts an empty entry for an unknown name. */
  function Lookup(st: GenState, name: string): (r: (string, GenState))
    ensures Grows(st, r.1) && r.1.lines == st.lines && r.1.labelCounter == st.labelCounter
    ensures name in r.1.symbols && r.1.symbols[name] == r.0
    ensures forall k :: k in st.symbols ==> r.1.symbols[k] == st.symbols[k]
  {
    if name in st.symbols then (st.symbols[name], st)
    else ("", st.(symbols := st.symbols[name := ""]))
  }

  const SectionText := "section .text"
  const IfComment := "    ; If statement"
  const WhileComment := "    ; While loop"
  const SyscallNote := "    " + "; Add your OS-specific syscall for printing here"

  // ------------------------------------------------------------ declarations

  /** The data line of a declaration, by storage kind, or none for an unknown kind. */
  function DataLine(varType: string, asmVar: string, tokens: seq<Token>): Option<string> {
    var init := |tokens| > 3;
    if varType == "intbox" then
      Some(asmVar + " dd " + (if init then tokens[3].value else "0"))
    else if varType == "floatbox" then
      Some(asmVar + " dq " + (if init then tokens[3].value else "0.0"))
    else if varType == "charbox" then
      Some(asmVar + " db " + (if init then "'" + tokens[3].value + "'" else "0"))
    else if varType == "stringbox" then
      Some(asmVar + " db " + (if init then "\"" + tokens[3].value + "\"" else "\"\"") + ", 0")
    else if varType == "boolbox" then
      Some(asmVar + " db " + (if init then (if tokens[3].value == "true" then "1" else "0") else "0"))
    else None
  }

  /** `generateVariableDeclaration`: the symbol is recorded before the kind is checked. */
  function GenDecl(st: GenState, s: ParsedStatement): (r: Emitted)
    requires |s.tokens| >= 2
    ensures Grows(st, r.st)
  {
    var name := s.tokens[1].value;
    var asmVar := "var_" + name;
    var st1 := st.(symbols := st.symbols[name := asmVar]);
    match DataLine(s.tokens[0].value, asmVar, s.tokens)
    case Some(line) => Emitted(Write(st1, line), None)
    case None => Emitted(st1, Some(UnsupportedVariableType(s.tokens[0].value)))
  }

  // ------------------------------------------------------------ output

  /** The tokens an output statement prints: string literals, identifiers and `endl`. */
  predicate Printed(t: Token) {
    t.kind == StringLiteral || t.kind == Identifier || (t.kind == Keyword && t.value == "endl")
  }

  /** One turn of the token loop of `generateOutput`. */
  function OutputToken(st: GenState, t: Token): (r: GenState)
    ensures Grows(st, r)
  {
    if t.kind == StringLiteral then
      Write(Write(Write(st, "    ; Print string literal"), "    mov rdi, " + t.value), SyscallNote)
    else if t.kind == Identifier then
      var st1 := Write(st, "    ; Print identifier");
      var (loc, st2) := Lookup(st1, t.value);
      Write(Write(st2, "    mov rax, " + loc), SyscallNote)
    else if t.kind == Keyword && t.value == "endl" then
      Write(Write(Write(st, "    ; Print newline"), "    mov rdi, '\\n'"), SyscallNote)
    else st
  }

  function OutputTokens(st: GenState, toks: seq<Token>): (r: GenState)
    ensures Grows(st, r)
    decreases |toks|
  {
    if toks == [] then st
    else
      var st1 := OutputToken(st, toks[0]);
      var r := OutputTokens(st1, toks[1..]);
      GrowsTransitive(st, st1, r);
      r
  }

  /** `generateOutput`. */
  function GenOutput(st: GenState, s: ParsedStatement): (r: GenState)
    ensures Grows(st, r)
  {
    OutputTokens(Write(Write(st, SectionText), "    ; Output logic"), s.tokens)
  }

  // ------------------------------------------------------------ conditions

  /** The conditional jump for a comparison operator. */
  function Jump(op: string): Option<string> {
    if op == "==" then Some("je")
    else if op == "!=" then Some("jne")
    else if op == "<" then Some("jl")
    else if op == "<=" then Some("jle")
    else if op == ">" then Some("jg")
    else if op == ">=" then Some("jge")
    else None
  }

  /** The comparison of a three-token condition and the jump to `target`. */
  function Compare(st: GenState, cond: seq<Token>, target: string): (r: GenState)
    ensures Grows(st, r) && r.labelCounter == st.labelCounter
  {
    if |cond| == 3 then
      var (loc, st1) := Lookup(st, cond[0].value);
      var st2 := Write(st1, "    cmp " + loc + ", " + cond[2].value);
      match Jump(cond[1].value)
      case Some(j) => Write(st2, "    " + j + " " + target)
      case None => st2
    else st
  }

  /** An unconditional jump. */
  function JumpTo(target: string): string {
    "    jmp " + target
  }

  /** The line that places a label. */
  function Placed(name: string): string {
    name + ":"
  }

  // ------------------------------------------------------------ the walk

  /** `generateCode`: the statements in order, stopping at the first error. */
  function GenCode(st: GenState, ss: seq<ParsedStatement>): (r: Emitted)
    requires AllWellFormed(ss)
    ensures Grows(st, r.st)
    decreases SizeAll(ss), 3
  {
    if ss == [] then Emitted(st, None)
    else
      var r1 := GenStmt(st, ss[0]);
      if r1.err.Some? then r1
      else
        var r := GenCode(r1.st, ss[1..]);
        GrowsTransitive(st, r1.st, r.st);
        r
  }

  /** The `switch` of `generateCode`. */
  function GenStmt(st: GenState, s: ParsedStatement): (r: Emitted)
    requires WellFormed(s)
    ensures Grows(st, r.st)
    decreases Size(s), 2
  {
    match s.kind
    case VariableDeclaration => GenDecl(st, s)
    case Output => Emitted(GenOutput(st, s), None)
    case Input => Emitted(st, None)
    case IfStatement => GenIf(st, s)
    case WhileLoop => GenWhile(st, s)
    case Expression => Emitted(GenExpression(st, s), None)
  }

  /** `generateIfStatement` up to the true label: three labels drawn, the header, the comparison, the jumps. */
  function IfHead(st: GenState, s: ParsedStatement): (r: GenState)
    ensures Grows(st, r) && r.labelCounter == st.labelCounter + 3
  {
    var n := st.labelCounter;
    var st1 := Write(Write(st.(labelCounter := n + 3), SectionText), IfComment);
    Write(Write(Compare(st1, s.tokens, Label("true_branch", n)), JumpTo(Label("false_branch", n + 1))), Placed(Label("true_branch", n)))
  }

  /** `generateIfStatement`: the head, every child, then the tail. */
  function GenIf(st: GenState, s: ParsedStatement): (r: Emitted)
    requires WellFormed(s)
    ensures Grows(st, r.st)
    decreases Size(s), 1
  {
    var head := IfHead(st, s);
    var body := GenCode(head, s.children);
    GrowsTransitive(st, head, body.st);
    if body.err.Some? then body
    else
      var r := IfTail(body.st, s, st.labelCounter);
      GrowsTransitive(st, body.st, r.st);
      r
  }

  /**
   * The end of `generateIfStatement`: the jump to the end label, the false
   * label, the child at index 1 once more when there is one, the end label.
   */
  function IfTail(st: GenState, s: ParsedStatement, n: nat): (r: Emitted)
    requires WellFormed(s)
    ensures Grows(st, r.st)
    decreases Size(s), 0
  {
    var mid := IfMid(st, n);
    var alt := if |s.children| > 1 then SizeOfChild(s.children, 1); GenCode(mid, [s.children[1]]) else Emitted(mid, None);
    GrowsTransitive(st, mid, alt.st);
    if alt.err.Some? then alt
    else
      var r := Emitted(Write(alt.st, Placed(Label("end_if", n + 2))), None);
      GrowsTransitive(st, alt.st, r.st);
      r
  }

  /** The jump past the false branch and the false label, which open the tail of an if. */
  function IfMid(st: GenState, n: nat): (r: GenState)
    ensures Grows(st, r) && r.labelCounter == st.labelCounter
  {
    Write(Write(st, JumpTo(Label("end_if", n + 2))), Placed(Label("false_branch", n + 1)))
  }

  /** `generateWhileLoop` up to the children: two labels drawn, the header, the start label, the comparison. */
  function WhileHead(st: GenState, s: ParsedStatement): (r: GenState)
    ensures Grows(st, r) && r.labelCounter == st.labelCounter + 2
  {
    var n := st.labelCounter;
    var start := Label("start_loop", n);
    Compare(Write(Write(Write(st.(labelCounter := n + 2), SectionText), WhileComment), Placed(start)), s.tokens, start)
  }

  /** `generateWhileLoop`: the head, the children, the jump back and the end label. */
  function GenWhile(st: GenState, s: ParsedStatement): (r: Emitted)
    requires WellFormed(s)
    ensures Grows(st, r.st)
    decreases Size(s), 1
  {
    var n := st.labelCounter;
    var head := WhileHead(st, s);
    var body := GenCode(head, s.children);
    GrowsTransitive(st, head, body.st);
    if body.err.Some? then body
    else
      var r := Emitted(WhileEnd(body.st, n), None);
      GrowsTransitive(st, body.st, r.st);
      r
  }

  /** Each token value followed by a space. */
  function Joined(toks: seq<Token>): string
    decreases |toks|
  {
    if toks == [] then "" else toks[0].value + " " + Joined(toks[1..])
  }

  /** `generateExpression`. */
  function GenExpression(st: GenState, s: ParsedStatement): (r: GenState)
    ensures Grows(st, r)
  {
    Write(Write(st, SectionText), "    ; Expression logic: " + Joined(s.tokens))
  }

  /** `finalize`: the closing comment, then the stream is closed. */
  function Finalized(st: GenState): GenState {
    Write(st, "    ; Finalize assembly").(closed := true)
  }

  lemma GrowsTransitive(a: GenState, b: GenState, c: GenState)
    requires Grows(a, b) && Grows(b, c)
    ensures Grows(a, c)
  {
    assert a.lines == b.lines[..|a.lines|] && b.lines == c.lines[..|b.lines|];
  }

  lemma {:induction false} SizeOfChild(ss: seq<ParsedStatement>, i: nat)
    requires i < |ss|
    ensures Size(ss[i]) <= SizeAll(ss)
    ensures SizeAll([ss[i]]) == Size(ss[i])
    decreases i
  {
    assert [ss[i]][1..] == [];
    if i > 0 {
      SizeOfChild(ss[1..], i - 1);
    }
  }

  // ------------------------------------------------------------ the class

  class Generator {
    var symbolTable: map<string, string>
    var labelCounter: nat
    var output: seq<string>
    var closed: bool

    function State(): GenState
      reads this
    {
      GenState(symbolTable, labelCounter, output, closed)
    }

    /** A generator with an empty table, the counter at zero, and an empty open stream. */
    constructor ()
      ensures State() == GenState(map[], 0, [], false)
    {
      symbolTable := map[];
      labelCounter := 0;
      output := [];
      closed := false;
    }

    /** `outputFile << line << "\n"`. */
    method Emit(line: string)
      modifies this
      ensures State() == Write(old(State()), line)
    {
      if !closed {
        output := output + [line];
      }
    }

    method GetLabel(base: string) returns (name: string)
      modifies this
      ensures name == Label(base, old(labelCounter))
      ensures State() == old(State()).(labelCounter := old(labelCounter) + 1)
    {
      name := base + Decimal.NatToString(labelCounter);
      labelCounter := labelCounter + 1;
    }

    method LookupSymbol(name: string) returns (loc: string)
      modifies this
      ensures (loc, State()) == Lookup(old(State()), name)
    {
      if name !in symbolTable {
        symbolTable := symbolTable[name := ""];
      }
      loc := symbolTable[name];
    }

    method GenerateCode(stmts: seq<ParsedStatement>) returns (err: Option<EmitError>)
      requires AllWellFormed(stmts)
      modifies this
      ensures Emitted(State(), err) == GenCode(old(State()), stmts)
      decreases SizeAll(stmts), 3
    {
      ghost var goal := GenCode(State(), stmts);
      err := None;
      var i := 0;
      while i < |stmts|
        invariant 0 <= i <= |stmts|
        invariant GenCode(State(), stmts[i..]) == goal
        invariant err == None
        decreases |stmts| - i
      {
        var stmt := stmts[i];
        SizeOfChild(stmts, i);
        ghost var before := State();
        assert stmts[i..][1..] == stmts[i + 1..];
        match stmt.kind {
          case VariableDeclaration => err := GenerateVariableDeclaration(stmt);
          case Output => GenerateOutput(stmt);
          case Input => GenerateInput(stmt);
          case IfStatement => err := GenerateIfStatement(stmt);
          case WhileLoop => err := GenerateWhileLoop(stmt);
          case Expression => GenerateExpression(stmt);
        }
        assert Emitted(State(), err) == GenStmt(before, stmt);
        if err.Some? {
          return;
        }
        i := i + 1;
      }
    }

    method GenerateVariableDeclaration(stmt: ParsedStatement) returns (err: Option<EmitError>)
      requires |stmt.tokens| >= 2
      modifies this
      ensures Emitted(State(), err) == GenDecl(old(State()), stmt)
    {
      var varType := stmt.tokens[0].value;
      var varName := stmt.tokens[1].value;
      var asmVar := "var_" + varName;
      symbolTable := symbolTable[varName := asmVar];
      var init := |stmt.tokens| > 3;
      err := None;
      if varType == "intbox" {
        Emit(asmVar + " dd " + (if init then stmt.tokens[3].value else "0"));
      } else if varType == "floatbox" {
        Emit(asmVar + " dq " + (if init then stmt.tokens[3].value else "0.0"));
      } else if varType == "charbox" {
        Emit(asmVar + " db " + (if init then "'" + stmt.tokens[3].value + "'" else "0"));
      } else if varType == "stringbox" {
        Emit(asmVar + " db " + (if init then "\"" + stmt.tokens[3].value + "\"" else "\"\"") + ", 0");
      } else if varType == "boolbox" {
        Emit(asmVar + " db " + (if init then (if stmt.tokens[3].value == "true" then "1" else "0") else "0"));
      } else {
        err := Some(UnsupportedVariableType(varType));
      }
    }

    method GenerateOutput(stmt: ParsedStatement)
      modifies this
      ensures State() == GenOutput(old(State()), stmt)
    {
      Emit(SectionText);
      Emit("    ; Output logic");
      ghost var goal := OutputTokens(State(), stmt.tokens);
      for i := 0 to |stmt.tokens|
        invariant OutputTokens(State(), stmt.tokens[i..]) == goal
      {
        var token := stmt.tokens[i];
        assert stmt.tokens[i..][1..] == stmt.tokens[i + 1..];
        if token.kind == StringLiteral {
          Emit("    ; Print string literal");
          Emit("    mov rdi, " + token.value);
          Emit(SyscallNote);
        } else if token.kind == Identifier {
          Emit("    ; Print identifier");
          var loc := LookupSymbol(token.value);
          Emit("    mov rax, " + loc);
          Emit(SyscallNote);
        } else if token.kind == Keyword && token.value == "endl" {
          Emit("    ; Print newline");
          Emit("    mov rdi, '\\n'");
          Emit(SyscallNote);
        }
      }
    }

    /** `generateInput` is a placeholder: it changes nothing. */
    method GenerateInput(stmt: ParsedStatement)
      ensures State() == old(State())
    {
    }

    method EmitCompare(cond: seq<Token>, target: string)
      modifies this
      ensures State() == Compare(old(State()), cond, target)
    {
      if |cond| == 3 {
        var loc := LookupSymbol(cond[0].value);
        Emit("    cmp " + loc + ", " + cond[2].value);
        var jump := Jump(cond[1].value);
        if jump.Some? {
          Emit("    " + jump.value + " " + target);
        }
      }
    }

    method GenerateIfStatement(stmt: ParsedStatement) returns (err: Option<EmitError>)
      requires WellFormed(stmt)
      modifies this
      ensures Emitted(State(), err) == GenIf(old(State()), stmt)
      decreases Size(stmt), 2
    {
      ghost var n := labelCounter;
      var falseLabel, endLabel := EmitIfHead(stmt);
      err := GenerateEach(stmt.children);
      if err.Some? {
        return;
      }
      err := EmitIfTail(stmt, n, falseLabel, endLabel);
    }

    /** The end of `generateIfStatement`, after the children. */
    method EmitIfTail(stmt: ParsedStatement, ghost n: nat, falseLabel: string, endLabel: string) returns (err: Option<EmitError>)
      requires WellFormed(stmt)
      requires falseLabel == Label("false_branch", n + 1) && endLabel == Label("end_if", n + 2)
      modifies this
      ensures Emitted(State(), err) == IfTail(old(State()), stmt, n)
      decreases Size(stmt), 1
    {
      Emit(JumpTo(endLabel));
      Emit(Placed(falseLabel));
      err := None;
      if |stmt.children| > 1 {
        SizeOfChild(stmt.children, 1);
        err := GenerateCode([stmt.children[1]]);
        if err.Some? {
          return;
        }
      }
      Emit(Placed(endLabel));
    }

    /** The start of `generateIfStatement`: the three labels, the header, the comparison and the jumps. */
    method EmitIfHead(stmt: ParsedStatement) returns (falseLabel: string, endLabel: string)
      modifies this
      ensures State() == IfHead(old(State()), stmt)
      ensures falseLabel == Label("false_branch", old(labelCounter) + 1)
      ensures endLabel == Label("end_if", old(labelCounter) + 2)
    {
      var trueLabel := GetLabel("true_branch");
      falseLabel := GetLabel("false_branch");
      endLabel := GetLabel("end_if");
      Emit(SectionText);
      Emit(IfComment);
      EmitCompare(stmt.tokens, trueLabel);
      Emit(JumpTo(falseLabel));
      Emit(Placed(trueLabel));
    }

    /** The loop `for (child : children) generateCode({child})` of the if and while lowerings. */
    method GenerateEach(children: seq<ParsedStatement>) returns (err: Option<EmitError>)
      requires AllWellFormed(children)
      modifies this
      ensures Emitted(State(), err) == GenCode(old(State()), children)
      decreases SizeAll(children) + 1, 1
    {
      ghost var goal := GenCode(State(), children);
      err := None;
      var i := 0;
      while i < |children|
        invariant 0 <= i <= |children|
        invariant GenCode(State(), children[i..]) == goal
        invariant err == None
        decreases |children| - i
      {
        SizeOfChild(children, i);
        ghost var before := State();
        assert children[i..][1..] == children[i + 1..];
        err := GenerateCode([children[i]]);
        assert [children[i]][1..] == [];
        assert Emitted(State(), err) == GenStmt(before, children[i]);
        if err.Some? {
          return;
        }
        i := i + 1;
      }
    }

    method GenerateWhileLoop(stmt: ParsedStatement) returns (err: Option<EmitError>)
      requires WellFormed(stmt)
      modifies this
      ensures Emitted(State(), err) == GenWhile(old(State()), stmt)
      decreases Size(stmt), 2
    {
      ghost var n := labelCounter;
      var startLabel, endLabel := EmitWhileHead(stmt);
      err := GenerateEach(stmt.children);
      if err.Some? {
        return;
      }
      Emit(JumpTo(startLabel));
      Emit(Placed(endLabel));
    }

    /** The start of `generateWhileLoop`: the two labels, the header, the start label and the comparison. */
    method EmitWhileHead(stmt: ParsedStatement) returns (startLabel: string, endLabel: string)
      modifies this
      ensures State() == WhileHead(old(State()), stmt)
      ensures startLabel == Label("start_loop", old(labelCounter))
      ensures endLabel == Label("end_loop", old(labelCounter) + 1)
    {
      startLabel := GetLabel("start_loop");
      endLabel := GetLabel("end_loop");
      Emit(SectionText);
      Emit(WhileComment);
      Emit(Placed(startLabel));
      EmitCompare(stmt.tokens, startLabel);
    }

    method GenerateExpression(stmt: ParsedStatement)
      modifies this
      ensures State() == GenExpression(old(State()), stmt)
    {
      Emit(SectionText);
      ghost var st1 := State();
      var joined := "";
      for i := 0 to |stmt.tokens|
        invariant joined == Joined(stmt.tokens[..i])
        invariant State() == st1
      {
        JoinedAppend(stmt.tokens[..i], stmt.tokens[i]);
        assert stmt.tokens[..i + 1] == stmt.tokens[..i] + [stmt.tokens[i]];
        joined := joined + stmt.tokens[i].value + " ";
      }
      assert stmt.tokens[..|stmt.tokens|] == stmt.tokens;
      Emit("    ; Expression logic: " + joined);
    }

    method Finalize()
      modifies this
      ensures State() == Finalized(old(State()))
    {
      Emit("    ; Finalize assembly");
      closed := true;
    }
  }

  // ------------------------------------------------------------ properties

  /** Appending a token to a joined list appends its value and a space. */
  lemma {:induction false} JoinedAppend(toks: seq<Token>, t: Token)
    ensures Joined(toks + [t]) == Joined(toks) + t.value + " "
    decreases |toks|
  {
    if toks == [] {
      assert [t][1..] == [];
    } else {
      assert (toks + [t])[0] == toks[0];
      assert (toks + [t])[1..] == toks[1..] + [t];
      JoinedAppend(toks[1..], t);
    }
  }

  /** Every token of an expression contributes its value and one space. */
  lemma {:induction false} JoinedLength(toks: seq<Token>)
    ensures |Joined(toks)| == |toks| + ValuesLength(toks)
    decreases |toks|
  {
    if toks != [] {
      JoinedLength(toks[1..]);
    }
  }

  function ValuesLength(toks: seq<Token>): nat
    decreases |toks|
  {
    if toks == [] then 0 else |toks[0].value| + ValuesLength(toks[1..])
  }

  // ---- labels

  /** The bases `generateIfStatement` and `generateWhileLoop` pass to `getLabel`. */
  predicate IsLabelBase(base: string) {
    base == "true_branch" || base == "false_branch" || base == "end_if" || base == "start_loop" || base == "end_loop"
  }

  lemma BaseEndsInLetter(base: string)
    requires IsLabelBase(base)
    ensures Decimal.EndsInNonDigit(base)
  {
  }

  /**
   * Labels never collide: two labels are equal exactly when they were drawn
   * with the same base and the same counter value, and the counter value can
   * be read back off the label.
   */
  lemma LabelsUnique(b1: string, n1: nat, b2: string, n2: nat)
    requires IsLabelBase(b1) && IsLabelBase(b2)
    ensures Label(b1, n1) == Label(b2, n2) <==> b1 == b2 && n1 == n2
    ensures Decimal.LabelNumber(Label(b1, n1)) == n1
  {
    BaseEndsInLetter(b1);
    BaseEndsInLetter(b2);
    if b1 != b2 || n1 != n2 {
      Decimal.LabelsDistinct(b1, n1, b2, n2);
    }
    Decimal.LabelRoundTrip(b1, n1);
  }

  // ---- the labels a walk places

  /**
   * The number of the emitter label a line places: the line starts in the
   * first column and is a label base, a decimal number and a colon.  Any
   * other line, an indented instruction or comment in particular, places none.
   */
  function PlacedNumber(line: string): Option<nat> {
    if |line| > 0 && line[0] != ' ' && line[|line| - 1] == ':' then
      var name := line[..|line| - 1];
      var digits := Decimal.DigitSuffix(name);
      if digits != [] && IsLabelBase(name[..|name| - |digits|]) then Some(Decimal.DigitsValue(digits)) else None
    else None
  }

  function PlacedOf(line: string): multiset<nat> {
    match PlacedNumber(line)
    case Some(m) => multiset{m}
    case None => multiset{}
  }

  /** The numbers of the labels placed by `lines`, with their multiplicity. */
  function Placements(lines: seq<string>): multiset<nat>
    decreases |lines|
  {
    if lines == [] then multiset{} else PlacedOf(lines[0]) + Placements(lines[1..])
  }

  /** The counter values `lo`, ..., `hi - 1`, each once. */
  function Drawn(lo: nat, hi: nat): multiset<nat>
    decreases hi - lo
  {
    if lo >= hi then multiset{} else multiset{lo} + Drawn(lo + 1, hi)
  }

  /** The lines written between two states of a walk. */
  function Written(a: GenState, b: GenState): seq<string>
    requires a.lines <= b.lines
  {
    b.lines[|a.lines|..]
  }

  /**
   * The labels a walk places are among the counter values it draws, none
   * twice, and, when no error stops it, they are all of them.
   */
  predicate PlacesDrawn(a: GenState, r: Emitted)
    requires Grows(a, r.st)
  {
    && Placements(Written(a, r.st)) <= Drawn(a.labelCounter, r.st.labelCounter)
    && (r.err.None? ==> Placements(Written(a, r.st)) == Drawn(a.labelCounter, r.st.labelCounter))
  }

  /** A placed label line places the number it was drawn with. */
  lemma PlacedLabel(b: string, m: nat)
    requires IsLabelBase(b)
    ensures PlacedNumber(Placed(Label(b, m))) == Some(m)
  {
    var name := Label(b, m);
    BaseStart(b);
    BaseEndsInLetter(b);
    Decimal.NumeralParts(b, m);
    assert name[0] == b[0];
    PlacedName(name, Decimal.DigitSuffix(name));
  }

  /** A label line places the value of its name's trailing digits when what precedes them is a label base. */
  lemma PlacedName(name: string, d: string)
    requires |name| > 0 && name[0] != ' ' && d == Decimal.DigitSuffix(name)
    requires d != [] && IsLabelBase(name[..|name| - |d|])
    ensures PlacedNumber(Placed(name)) == Some(Decimal.DigitsValue(d))
  {
    var line := Placed(name);
    assert line[..|line| - 1] == name;
  }

  lemma BaseStart(base: string)
    requires IsLabelBase(base)
    ensures |base| > 0 && base[0] in {'t', 'f', 'e', 's'}
  {
  }

  /** A line that places a label starts with the first letter of a label base. */
  lemma PlacedStart(line: string)
    requires PlacedNumber(line).Some?
    ensures |line| > 0 && line[0] in {'t', 'f', 'e', 's'}
  {
    var name := line[..|line| - 1];
    var digits := Decimal.DigitSuffix(name);
    var base := name[..|name| - |digits|];
    BaseStart(base);
    assert base[0] == name[0] == line[0];
  }

  /** An indented line, or a data line (`var_...`), places no label. */
  lemma Unplaced(line: string)
    requires |line| > 0 && (line[0] == ' ' || line[0] == 'v')
    ensures PlacedOf(line) == multiset{}
  {
    if PlacedNumber(line).Some? {
      PlacedStart(line);
    }
  }

  lemma {:induction false} PlacementsAppend(a: seq<string>, b: seq<string>)
    ensures Placements(a + b) == Placements(a) + Placements(b)
    decreases |a|
  {
    if a == [] {
      assert a + b == b;
    } else {
      assert (a + b)[0] == a[0] && (a + b)[1..] == a[1..] + b;
      PlacementsAppend(a[1..], b);
    }
  }

  lemma {:induction false} DrawnCount(lo: nat, hi: nat, m: nat)
    ensures Drawn(lo, hi)[m] == if lo <= m < hi then 1 else 0
    decreases hi - lo
  {
    if lo < hi {
      DrawnCount(lo + 1, hi, m);
    }
  }

  lemma DrawnSplit(lo: nat, mid: nat, hi: nat)
    requires lo <= mid <= hi
    ensures Drawn(lo, hi) == Drawn(lo, mid) + Drawn(mid, hi)
  {
    forall m: nat
      ensures Drawn(lo, hi)[m] == (Drawn(lo, mid) + Drawn(mid, hi))[m]
    {
      DrawnCount(lo, hi, m);
      DrawnCount(lo, mid, m);
      DrawnCount(mid, hi, m);
    }
  }

  lemma WriteLine(a: GenState, b: GenState, line: string)
    requires Grows(a, b) && !b.closed
    ensures Grows(a, Write(b, line))
    ensures Placements(Written(a, Write(b, line))) == Placements(Written(a, b)) + PlacedOf(line)
  {
    GrowsTransitive(a, b, Write(b, line));
    var w := Written(a, b);
    assert Written(a, Write(b, line)) == w + [line];
    PlacementsAppend(w, [line]);
    assert [line][1..] == [];
  }

  /** Writing a label line places its number and nothing else. */
  lemma WriteLabel(a: GenState, b: GenState, base: string, m: nat)
    requires Grows(a, b) && !b.closed && IsLabelBase(base)
    ensures Grows(a, Write(b, Placed(Label(base, m))))
    ensures Placements(Written(a, Write(b, Placed(Label(base, m))))) == Placements(Written(a, b)) + multiset{m}
  {
    var line := Placed(Label(base, m));
    assert PlacedOf(line) == multiset{m} by {
      PlacedLabel(base, m);
    }
    WriteLine(a, b, line);
  }

  lemma WrittenJoin(a: GenState, b: GenState, c: GenState)
    requires Grows(a, b) && Grows(b, c)
    ensures Grows(a, c)
    ensures Placements(Written(a, c)) == Placements(Written(a, b)) + Placements(Written(b, c))
  {
    GrowsTransitive(a, b, c);
    assert Written(a, c) == Written(a, b) + Written(b, c);
    PlacementsAppend(Written(a, b), Written(b, c));
  }

  lemma CompareLabels(st: GenState, cond: seq<Token>, target: string)
    requires !st.closed
    ensures Placements(Written(st, Compare(st, cond, target))) == multiset{}
  {
    if |cond| == 3 {
      var (loc, st1) := Lookup(st, cond[0].value);
      var line := "    cmp " + loc + ", " + cond[2].value;
      Unplaced(line);
      WriteLine(st, st1, line);
      var st2 := Write(st1, line);
      match Jump(cond[1].value)
      case Some(j) =>
        Unplaced("    " + j + " " + target);
        WriteLine(st, st2, "    " + j + " " + target);
      case None =>
    }
  }

  lemma OutputTokenLabels(st: GenState, t: Token)
    requires !st.closed
    ensures Placements(Written(st, OutputToken(st, t))) == multiset{}
  {
    Unplaced(SyscallNote);
    if t.kind == StringLiteral {
      var st1 := Write(st, "    ; Print string literal");
      var st2 := Write(st1, "    mov rdi, " + t.value);
      Unplaced("    ; Print string literal");
      Unplaced("    mov rdi, " + t.value);
      WriteLine(st, st, "    ; Print string literal");
      WriteLine(st, st1, "    mov rdi, " + t.value);
      WriteLine(st, st2, SyscallNote);
    } else if t.kind == Identifier {
      var st1 := Write(st, "    ; Print identifier");
      var (loc, st2) := Lookup(st1, t.value);
      var st3 := Write(st2, "    mov rax, " + loc);
      Unplaced("    ; Print identifier");
      Unplaced("    mov rax, " + loc);
      WriteLine(st, st, "    ; Print identifier");
      WriteLine(st, st2, "    mov rax, " + loc);
      WriteLine(st, st3, SyscallNote);
    } else if t.kind == Keyword && t.value == "endl" {
      var st1 := Write(st, "    ; Print newline");
      var st2 := Write(st1, "    mov rdi, '\\n'");
      Unplaced("    ; Print newline");
      Unplaced("    mov rdi, '\\n'");
      WriteLine(st, st, "    ; Print newline");
      WriteLine(st, st1, "    mov rdi, '\\n'");
      WriteLine(st, st2, SyscallNote);
    }
  }

  lemma {:induction false} OutputTokensLabels(st: GenState, toks: seq<Token>)
    requires !st.closed
    ensures Placements(Written(st, OutputTokens(st, toks))) == multiset{}
    decreases |toks|
  {
    if toks != [] {
      var st1 := OutputToken(st, toks[0]);
      OutputTokenLabels(st, toks[0]);
      OutputTokensLabels(st1, toks[1..]);
      WrittenJoin(st, st1, OutputTokens(st1, toks[1..]));
    }
  }

  /** The section line places no label: it does not end in a colon. */
  lemma SectionUnplaced()
    ensures PlacedOf(SectionText) == multiset{}
  {
  }

  /** A statement that draws no label places none. */
  lemma PlainStatementLabels(st: GenState, s: ParsedStatement)
    requires WellFormed(s) && !st.closed
    requires s.kind != IfStatement && s.kind != WhileLoop
    ensures Placements(Written(st, GenStmt(st, s).st)) == multiset{}
    ensures GenStmt(st, s).st.labelCounter == st.labelCounter
  {
    SectionUnplaced();
    match s.kind
    case VariableDeclaration =>
      var r := GenDecl(st, s);
      var name := s.tokens[1].value;
      var st1 := st.(symbols := st.symbols[name := "var_" + name]);
      match DataLine(s.tokens[0].value, "var_" + name, s.tokens) {
        case Some(line) =>
          var value := DataLineParts(s.tokens[0].value, "var_" + name, s.tokens);
          Unplaced(line);
          WriteLine(st, st1, line);
        case None =>
      }
    case Output =>
      var st1 := Write(Write(st, SectionText), "    ; Output logic");
      WriteLine(st, st, SectionText);
      Unplaced("    ; Output logic");
      WriteLine(st, Write(st, SectionText), "    ; Output logic");
      OutputTokensLabels(st1, s.tokens);
      WrittenJoin(st, st1, OutputTokens(st1, s.tokens));
      OutputKeepsSymbols(st1, s.tokens);
    case Input =>
    case Expression =>
      var line := "    ; Expression logic: " + Joined(s.tokens);
      WriteLine(st, st, SectionText);
      Unplaced(line);
      WriteLine(st, Write(st, SectionText), line);
  }

  lemma IfHeadLabels(st: GenState, s: ParsedStatement)
    requires !st.closed
    ensures Placements(Written(st, IfHead(st, s))) == multiset{st.labelCounter}
  {
    var n := st.labelCounter;
    var st0 := st.(labelCounter := n + 3);
    var st1 := Write(st0, SectionText);
    var st2 := Write(st1, IfComment);
    var c := Compare(st2, s.tokens, Label("true_branch", n));
    var st3 := Write(c, JumpTo(Label("false_branch", n + 1)));
    assert IfHead(st, s) == Write(st3, Placed(Label("true_branch", n)));
    SectionUnplaced();
    Unplaced(IfComment);
    Unplaced(JumpTo(Label("false_branch", n + 1)));
    WriteLine(st, st0, SectionText);
    WriteLine(st, st1, IfComment);
    CompareLabels(st2, s.tokens, Label("true_branch", n));
    WrittenJoin(st, st2, c);
    WriteLine(st, c, JumpTo(Label("false_branch", n + 1)));
    WriteLabel(st, st3, "true_branch", n);
  }

  lemma WhileHeadLabels(st: GenState, s: ParsedStatement)
    requires !st.closed
    ensures Placements(Written(st, WhileHead(st, s))) == multiset{st.labelCounter}
  {
    var n := st.labelCounter;
    var start := Label("start_loop", n);
    var st0 := st.(labelCounter := n + 2);
    var st1 := Write(st0, SectionText);
    var st2 := Write(st1, WhileComment);
    var st3 := Write(st2, Placed(start));
    assert WhileHead(st, s) == Compare(st3, s.tokens, start);
    SectionUnplaced();
    Unplaced(WhileComment);
    WriteLine(st, st0, SectionText);
    WriteLine(st, st1, WhileComment);
    WriteLabel(st, st2, "start_loop", n);
    CompareLabels(st3, s.tokens, start);
    WrittenJoin(st, st3, Compare(st3, s.tokens, start));
  }

  /** Every walk places exactly the labels it draws, each once; it stops short of some when an error stops it. */
  lemma {:induction false} CodeLabels(st: GenState, ss: seq<ParsedStatement>)
    requires AllWellFormed(ss) && !st.closed
    ensures PlacesDrawn(st, GenCode(st, ss))
    decreases SizeAll(ss), 3
  {
    if ss != [] {
      var r1 := GenStmt(st, ss[0]);
      StmtLabels(st, ss[0]);
      if r1.err.None? {
        var r := GenCode(r1.st, ss[1..]);
        CodeLabels(r1.st, ss[1..]);
        WrittenJoin(st, r1.st, r.st);
        DrawnSplit(st.labelCounter, r1.st.labelCounter, r.st.labelCounter);
      }
    }
  }

  lemma {:induction false} StmtLabels(st: GenState, s: ParsedStatement)
    requires WellFormed(s) && !st.closed
    ensures PlacesDrawn(st, GenStmt(st, s))
    decreases Size(s), 2
  {
    if s.kind == IfStatement {
      IfLabels(st, s);
    } else if s.kind == WhileLoop {
      WhileLabels(st, s);
    } else {
      PlainStatementLabels(st, s);
    }
  }

  lemma {:induction false} IfLabels(st: GenState, s: ParsedStatement)
    requires WellFormed(s) && !st.closed
    ensures PlacesDrawn(st, GenIf(st, s))
    decreases Size(s), 1
  {
    var n := st.labelCounter;
    var head := IfHead(st, s);
    var body := GenCode(head, s.children);
    var pb := Placements(Written(head, body.st));
    assert Grows(st, body.st) && Placements(Written(st, body.st)) == multiset{n} + pb && PlacesDrawn(head, body) by {
      IfHeadLabels(st, s);
      CodeLabels(head, s.children);
      WrittenJoin(st, head, body.st);
    }
    if body.err.None? {
      var r := IfTail(body.st, s, n);
      GrowsTransitive(st, body.st, r.st);
      assert PlacesDrawn(st, r) by {
        IfTailLabels(body.st, s, n);
        WrittenJoin(st, body.st, r.st);
        IfSum(n, body.st.labelCounter, r.st.labelCounter, pb, Placements(Written(body.st, r.st)));
      }
      assert GenIf(st, s) == r;
    } else {
      assert PlacesDrawn(st, body) by {
        IfSum(n, body.st.labelCounter, body.st.labelCounter, pb, multiset{});
        assert Drawn(body.st.labelCounter, body.st.labelCounter) == multiset{};
      }
      assert GenIf(st, s) == body;
    }
  }

  /** The counter values an if draws: its three, then its children's, then its second child's again. */
  lemma IfDrawn(n: nat, c1: nat, c2: nat)
    requires n + 3 <= c1 <= c2
    ensures Drawn(n, c2) == multiset{n} + Drawn(n + 3, c1) + multiset{n + 1, n + 2} + Drawn(c1, c2)
  {
    IfDrawnHead(n, c1);
    DrawnSplit(n, c1, c2);
  }

  lemma IfDrawnHead(n: nat, c1: nat)
    requires n + 3 <= c1
    ensures Drawn(n, c1) == multiset{n} + Drawn(n + 3, c1) + multiset{n + 1, n + 2}
  {
    assert Drawn(n, c1) == multiset{n} + Drawn(n + 1, c1);
    assert Drawn(n + 1, c1) == multiset{n + 1} + Drawn(n + 2, c1);
    assert Drawn(n + 2, c1) == multiset{n + 2} + Drawn(n + 3, c1);
  }

  /** How the labels of an if add up: its true label, its children's, then its false and end labels and its second child's. */
  lemma IfSum(n: nat, c1: nat, c2: nat, pb: multiset<nat>, pt: multiset<nat>)
    requires n + 3 <= c1 <= c2
    requires pb <= Drawn(n + 3, c1) && pt <= multiset{n + 1, n + 2} + Drawn(c1, c2)
    ensures multiset{n} + pb + pt <= Drawn(n, c2)
    ensures pb == Drawn(n + 3, c1) && pt == multiset{n + 1, n + 2} + Drawn(c1, c2) ==> multiset{n} + pb + pt == Drawn(n, c2)
  {
    IfDrawn(n, c1, c2);
  }

  /** The counter values a while draws: its two, then its children's. */
  lemma WhileDrawn(n: nat, c1: nat)
    requires n + 2 <= c1
    ensures Drawn(n, c1) == multiset{n} + Drawn(n + 2, c1) + multiset{n + 1}
  {
    assert Drawn(n, c1) == multiset{n} + Drawn(n + 1, c1);
    assert Drawn(n + 1, c1) == multiset{n + 1} + Drawn(n + 2, c1);
  }

  /** How the labels of a while add up: its start label, its children's, its end label. */
  lemma WhileSum(n: nat, c1: nat, pb: multiset<nat>, pe: multiset<nat>)
    requires n + 2 <= c1
    requires pb <= Drawn(n + 2, c1) && pe <= multiset{n + 1}
    ensures multiset{n} + pb + pe <= Drawn(n, c1)
    ensures pb == Drawn(n + 2, c1) && pe == multiset{n + 1} ==> multiset{n} + pb + pe == Drawn(n, c1)
  {
    WhileDrawn(n, c1);
  }

  /** The tail of an if places its false and end labels and what its second child draws. */
  lemma {:induction false} IfTailLabels(st: GenState, s: ParsedStatement, n: nat)
    requires WellFormed(s) && !st.closed
    ensures var r := IfTail(st, s, n);
      && Placements(Written(st, r.st)) <= multiset{n + 1, n + 2} + Drawn(st.labelCounter, r.st.labelCounter)
      && (r.err.None? ==> Placements(Written(st, r.st)) == multiset{n + 1, n + 2} + Drawn(st.labelCounter, r.st.labelCounter))
    decreases Size(s), 0
  {
    var mid := IfMid(st, n);
    IfMidLabels(st, n);
    if |s.children| > 1 {
      SizeOfChild(s.children, 1);
      var alt := GenCode(mid, [s.children[1]]);
      CodeLabels(mid, [s.children[1]]);
      IfTailSum(st, mid, alt, n);
      IfTailEnd(st, s, n, alt);
    } else {
      var alt := Emitted(mid, None);
      assert Written(mid, mid) == [];
      IfTailSum(st, mid, alt, n);
      IfTailEnd(st, s, n, alt);
    }
  }

  /** The state after the tail of an if, once its second child (if any) has been emitted. */
  lemma IfTailEnd(st: GenState, s: ParsedStatement, n: nat, alt: Emitted)
    requires WellFormed(s)
    requires alt == if |s.children| > 1 then SizeOfChild(s.children, 1); GenCode(IfMid(st, n), [s.children[1]]) else Emitted(IfMid(st, n), None)
    ensures IfTail(st, s, n) == if alt.err.Some? then alt else Emitted(Write(alt.st, Placed(Label("end_if", n + 2))), None)
  {
  }

  /** How the labels of the tail of an if add up: its false label, its second child's, its end label. */
  lemma IfTailSum(st: GenState, mid: GenState, alt: Emitted, n: nat)
    requires !mid.closed && Grows(st, mid) && Grows(mid, alt.st) && mid.labelCounter == st.labelCounter
    requires Placements(Written(st, mid)) == multiset{n + 1} && PlacesDrawn(mid, alt)
    ensures Placements(Written(st, alt.st)) <= multiset{n + 1, n + 2} + Drawn(st.labelCounter, alt.st.labelCounter)
    ensures alt.err.None? ==>
      Placements(Written(st, Write(alt.st, Placed(Label("end_if", n + 2))))) == multiset{n + 1, n + 2} + Drawn(st.labelCounter, alt.st.labelCounter)
  {
    var pa := Placements(Written(mid, alt.st));
    WrittenJoin(st, mid, alt.st);
    AddPair(n + 1, n + 2, pa, Drawn(st.labelCounter, alt.st.labelCounter));
    if alt.err.None? {
      IfTailTotal(st, alt.st, n, pa);
    }
  }

  lemma AddPair(a: nat, b: nat, p: multiset<nat>, q: multiset<nat>)
    requires p <= q
    ensures multiset{a} + p <= multiset{a, b} + q
  {
  }

  /** An if that reaches its end label places it after its false label and its second child's labels. */
  lemma IfTailTotal(st: GenState, alt: GenState, n: nat, pa: multiset<nat>)
    requires !alt.closed && Grows(st, alt)
    requires Placements(Written(st, alt)) == multiset{n + 1} + pa
    requires pa == Drawn(st.labelCounter, alt.labelCounter)
    ensures Placements(Written(st, Write(alt, Placed(Label("end_if", n + 2)))))
      == multiset{n + 1, n + 2} + Drawn(st.labelCounter, alt.labelCounter)
  {
    WriteLabel(st, alt, "end_if", n + 2);
    assert multiset{n + 1} + pa + multiset{n + 2} == multiset{n + 1, n + 2} + pa;
  }

  lemma IfMidLabels(st: GenState, n: nat)
    requires !st.closed
    ensures Placements(Written(st, IfMid(st, n))) == multiset{n + 1}
  {
    var jump := Write(st, JumpTo(Label("end_if", n + 2)));
    Unplaced(JumpTo(Label("end_if", n + 2)));
    WriteLine(st, st, JumpTo(Label("end_if", n + 2)));
    WriteLabel(st, jump, "false_branch", n + 1);
  }

  /** The last two lines of a while: the jump back to its start label and its end label. */
  function WhileEnd(st: GenState, n: nat): (r: GenState)
    ensures Grows(st, r) && r.labelCounter == st.labelCounter
  {
    Write(Write(st, JumpTo(Label("start_loop", n))), Placed(Label("end_loop", n + 1)))
  }

  lemma WhileEndLabels(st: GenState, n: nat)
    requires !st.closed
    ensures Placements(Written(st, WhileEnd(st, n))) == multiset{n + 1}
  {
    var jump := Write(st, JumpTo(Label("start_loop", n)));
    Unplaced(JumpTo(Label("start_loop", n)));
    WriteLine(st, st, JumpTo(Label("start_loop", n)));
    WriteLabel(st, jump, "end_loop", n + 1);
  }

  /** A while that reaches its end places its start label, its children's labels and its end label: all it draws. */
  lemma WhileTotal(st: GenState, body: GenState, pb: multiset<nat>)
    requires !body.closed && Grows(st, body) && st.labelCounter + 2 <= body.labelCounter
    requires Placements(Written(st, body)) == multiset{st.labelCounter} + pb
    requires pb == Drawn(st.labelCounter + 2, body.labelCounter)
    ensures Placements(Written(st, WhileEnd(body, st.labelCounter))) == Drawn(st.labelCounter, body.labelCounter)
  {
    var n := st.labelCounter;
    var end := WhileEnd(body, n);
    assert Placements(Written(st, end)) == multiset{n} + pb + multiset{n + 1} by {
      WhileEndLabels(body, n);
      WrittenJoin(st, body, end);
    }
    WhileDrawn(n, body.labelCounter);
  }

  lemma {:induction false} WhileLabels(st: GenState, s: ParsedStatement)
    requires WellFormed(s) && !st.closed
    ensures PlacesDrawn(st, GenWhile(st, s))
    decreases Size(s), 1
  {
    var n := st.labelCounter;
    var head := WhileHead(st, s);
    var body := GenCode(head, s.children);
    var pb := Placements(Written(head, body.st));
    assert Grows(st, body.st) && Placements(Written(st, body.st)) == multiset{n} + pb && PlacesDrawn(head, body) by {
      WhileHeadLabels(st, s);
      CodeLabels(head, s.children);
      WrittenJoin(st, head, body.st);
    }
    if body.err.None? {
      WhileTotal(st, body.st, pb);
      assert GenWhile(st, s) == Emitted(WhileEnd(body.st, n), None);
    } else {
      assert Placements(Written(st, body.st)) <= Drawn(n, body.st.labelCounter) by {
        WhileSum(n, body.st.labelCounter, pb, multiset{});
      }
      assert GenWhile(st, s) == body;
    }
  }

  /** `m` is placed by `lines` exactly when some line places it. */
  lemma {:induction false} InPlacements(lines: seq<string>, m: nat)
    ensures m in Placements(lines) <==> exists i :: 0 <= i < |lines| && PlacedNumber(lines[i]) == Some(m)
    decreases |lines|
  {
    if lines != [] {
      var tail := lines[1..];
      InPlacements(tail, m);
      if exists i :: 0 <= i < |tail| && PlacedNumber(tail[i]) == Some(m) {
        var i :| 0 <= i < |tail| && PlacedNumber(tail[i]) == Some(m);
        assert lines[i + 1] == tail[i];
      }
      if exists i :: 0 <= i < |lines| && PlacedNumber(lines[i]) == Some(m) {
        var i :| 0 <= i < |lines| && PlacedNumber(lines[i]) == Some(m);
        if i > 0 {
          assert tail[i - 1] == lines[i];
        }
      }
    }
  }

  /** Two lines placing the same number make it count twice. */
  lemma {:induction false} PlacedTwice(lines: seq<string>, i: nat, j: nat, m: nat)
    requires i < j < |lines| && PlacedNumber(lines[i]) == Some(m) && PlacedNumber(lines[j]) == Some(m)
    ensures Placements(lines)[m] >= 2
    decreases i
  {
    var tail := lines[1..];
    assert tail[j - 1] == lines[j];
    if i == 0 {
      PlacedAt(tail, j - 1, m);
    } else {
      assert tail[i - 1] == lines[i];
      PlacedTwice(tail, i - 1, j - 1, m);
    }
  }

  /** A line placing `m` puts `m` among the placements. */
  lemma {:induction false} PlacedAt(lines: seq<string>, k: nat, m: nat)
    requires k < |lines| && PlacedNumber(lines[k]) == Some(m)
    ensures m in Placements(lines)
    decreases k
  {
    if k > 0 {
      assert lines[1..][k - 1] == lines[k];
      PlacedAt(lines[1..], k - 1, m);
    }
  }

  /**
   * No label is placed twice in one pass: every label line the walk writes
   * carries a counter value drawn during the walk, no two carry the same
   * one, and when no error stops the walk every value drawn is placed.
   */
  lemma LabelsPlacedOnce(st: GenState, ss: seq<ParsedStatement>)
    requires AllWellFormed(ss) && !st.closed
    ensures var r := GenCode(st, ss);
      var w := Written(st, r.st);
      && (forall i :: 0 <= i < |w| && PlacedNumber(w[i]).Some? ==>
            st.labelCounter <= PlacedNumber(w[i]).value < r.st.labelCounter)
      && (forall i, j :: 0 <= i < j < |w| && PlacedNumber(w[i]).Some? ==> PlacedNumber(w[i]) != PlacedNumber(w[j]))
      && (r.err.None? ==> forall m :: st.labelCounter <= m < r.st.labelCounter ==>
            exists i :: 0 <= i < |w| && PlacedNumber(w[i]) == Some(m))
  {
    var r := GenCode(st, ss);
    CodeLabels(st, ss);
    PlacedWithin(Written(st, r.st), st.labelCounter, r.st.labelCounter);
    if r.err.None? {
      PlacedAll(Written(st, r.st), st.labelCounter, r.st.labelCounter);
    }
  }

  /** Lines whose placements are among `lo`, ..., `hi - 1` place values in that range, none twice. */
  lemma PlacedWithin(w: seq<string>, lo: nat, hi: nat)
    requires Placements(w) <= Drawn(lo, hi)
    ensures forall i :: 0 <= i < |w| && PlacedNumber(w[i]).Some? ==> lo <= PlacedNumber(w[i]).value < hi
    ensures forall i, j :: 0 <= i < j < |w| && PlacedNumber(w[i]).Some? ==> PlacedNumber(w[i]) != PlacedNumber(w[j])
  {
    forall i | 0 <= i < |w| && PlacedNumber(w[i]).Some?
      ensures lo <= PlacedNumber(w[i]).value < hi
    {
      var m := PlacedNumber(w[i]).value;
      PlacedAt(w, i, m);
      DrawnCount(lo, hi, m);
    }
    forall i, j | 0 <= i < j < |w| && PlacedNumber(w[i]).Some?
      ensures PlacedNumber(w[i]) != PlacedNumber(w[j])
    {
      var m := PlacedNumber(w[i]).value;
      if PlacedNumber(w[j]) == Some(m) {
        PlacedTwice(w, i, j, m);
        DrawnCount(lo, hi, m);
      }
    }
  }

  /** Lines whose placements are exactly `lo`, ..., `hi - 1` place every one of them. */
  lemma PlacedAll(w: seq<string>, lo: nat, hi: nat)
    requires Placements(w) == Drawn(lo, hi)
    ensures forall m :: lo <= m < hi ==> exists i :: 0 <= i < |w| && PlacedNumber(w[i]) == Some(m)
  {
    forall m | lo <= m < hi
      ensures exists i :: 0 <= i < |w| && PlacedNumber(w[i]) == Some(m)
    {
      DrawnCount(lo, hi, m);
      InPlacements(w, m);
    }
  }

  /**
   * An if draws three consecutive counter values before its children are
   * generated, so every label its children place, and every label after it,
   * has a larger number; a while draws two.
   */
  lemma LoopsDrawFreshLabels(st: GenState, s: ParsedStatement)
    requires WellFormed(s)
    ensures IfHead(st, s).labelCounter == st.labelCounter + 3
    ensures st.labelCounter + 3 <= GenIf(st, s).st.labelCounter
    ensures WhileHead(st, s).labelCounter == st.labelCounter + 2
    ensures st.labelCounter + 2 <= GenWhile(st, s).st.labelCounter
    ensures !st.closed ==> var head := IfHead(st, s);
      forall m :: m in Placements(Written(head, GenCode(head, s.children).st)) ==> st.labelCounter + 3 <= m
    ensures !st.closed ==> var head := WhileHead(st, s);
      forall m :: m in Placements(Written(head, GenCode(head, s.children).st)) ==> st.labelCounter + 2 <= m
  {
    if !st.closed {
      var head := IfHead(st, s);
      var body := GenCode(head, s.children);
      CodeLabels(head, s.children);
      forall m | m in Placements(Written(head, body.st))
        ensures st.labelCounter + 3 <= m
      {
        DrawnCount(head.labelCounter, body.st.labelCounter, m);
      }
      var whead := WhileHead(st, s);
      var wbody := GenCode(whead, s.children);
      CodeLabels(whead, s.children);
      forall m | m in Placements(Written(whead, wbody.st))
        ensures st.labelCounter + 2 <= m
      {
        DrawnCount(whead.labelCounter, wbody.st.labelCounter, m);
      }
    }
  }

  // ---- the walk

  /** Generating a concatenation is generating the first part, then the second unless it failed. */
  lemma {:induction false} GenCodeAppend(st: GenState, a: seq<ParsedStatement>, b: seq<ParsedStatement>)
    requires AllWellFormed(a) && AllWellFormed(b)
    ensures AllWellFormed(a + b)
    ensures GenCode(st, a + b) == (var r := GenCode(st, a); if r.err.Some? then r else GenCode(r.st, b))
    decreases |a|
  {
    assert AllWellFormed(a + b) by {
      forall i | 0 <= i < |a + b|
        ensures WellFormed((a + b)[i])
      {
        if i >= |a| {
          assert (a + b)[i] == b[i - |a|];
        }
      }
    }
    if a == [] {
      assert a + b == b;
    } else {
      assert (a + b)[0] == a[0];
      assert (a + b)[1..] == a[1..] + b;
      var r1 := GenStmt(st, a[0]);
      if r1.err.None? {
        GenCodeAppend(r1.st, a[1..], b);
      }
    }
  }

  /** Once the stream is closed, generating anything more writes nothing. */
  lemma NothingAfterFinalize(st: GenState, ss: seq<ParsedStatement>)
    requires AllWellFormed(ss)
    ensures Finalized(st).closed
    ensures !st.closed ==> Finalized(st).lines == st.lines + ["    ; Finalize assembly"]
    ensures GenCode(Finalized(st), ss).st.lines == Finalized(st).lines
  {
  }

  // ---- declarations

  /** The storage kinds a declaration may name. */
  predicate IsStorageKind(k: string) {
    k == "intbox" || k == "floatbox" || k == "charbox" || k == "stringbox" || k == "boolbox"
  }

  /** The data directive of each storage kind: four bytes for an int, eight for a float, bytes otherwise. */
  function Directive(k: string): string
    requires IsStorageKind(k)
  {
    if k == "intbox" then "dd" else if k == "floatbox" then "dq" else "db"
  }

  /**
   * A declaration binds its name to `var_<name>` whatever its kind, then
   * writes one data line under that name with the kind's directive, or
   * fails for an unknown kind and writes nothing.
   */
  lemma DeclRecordsSymbol(st: GenState, s: ParsedStatement)
    requires |s.tokens| >= 2
    ensures var r := GenDecl(st, s);
      var name := s.tokens[1].value;
      && r.st.symbols == st.symbols[name := "var_" + name]
      && Lookup(r.st, name) == ("var_" + name, r.st)
      && r.st.labelCounter == st.labelCounter
      && (r.err.Some? <==> !IsStorageKind(s.tokens[0].value))
      && (r.err.Some? ==> r.err == Some(UnsupportedVariableType(s.tokens[0].value)) && r.st.lines == st.lines)
      && (r.err.None? && !st.closed ==>
            r.st.lines[..|st.lines|] == st.lines
            && |r.st.lines| == |st.lines| + 1
            && "var_" + name + " " + Directive(s.tokens[0].value) + " " <= r.st.lines[|st.lines|])
  {
    var name := s.tokens[1].value;
    var k := s.tokens[0].value;
    var r := GenDecl(st, s);
    if r.err.None? && !st.closed {
      var line := DataLine(k, "var_" + name, s.tokens).value;
      assert r.st.lines == st.lines + [line];
      var value := DataLineParts(k, "var_" + name, s.tokens);
    }
  }

  /** The initial value a declaration of a storage kind gets when it has no initialiser. */
  function Default(k: string): string {
    if k == "floatbox" then "0.0" else if k == "stringbox" then "\"\", 0" else "0"
  }

  /**
   * The data line of a known storage kind is the name, the kind's directive
   * and a value: the kind's zero without an initialiser, the initialiser
   * itself for an int or a float, the initialiser in single quotes for a
   * character, in double quotes and followed by a terminating 0 for a string,
   * and for a boolean 1 exactly when it is initialised with `true`, 0 otherwise.
   */
  lemma DataLineParts(k: string, v: string, tokens: seq<Token>) returns (value: string)
    requires IsStorageKind(k)
    ensures DataLine(k, v, tokens) == Some(v + " " + Directive(k) + " " + value)
    ensures |tokens| <= 3 ==> value == Default(k)
    ensures |tokens| > 3 && (k == "intbox" || k == "floatbox") ==> value == tokens[3].value
    ensures |tokens| > 3 && k == "charbox" ==> value == "'" + tokens[3].value + "'"
    ensures |tokens| > 3 && k == "stringbox" ==> value == "\"" + tokens[3].value + "\", 0"
    ensures k == "boolbox" ==> (value == "1" || value == "0") && (value == "1" <==> |tokens| > 3 && tokens[3].value == "true")
  {
    var init := |tokens| > 3;
    if k == "intbox" {
      value := if init then tokens[3].value else "0";
      assert v + " dd " + value == v + " " + "dd" + " " + value;
    } else if k == "floatbox" {
      value := if init then tokens[3].value else "0.0";
      assert v + " dq " + value == v + " " + "dq" + " " + value;
    } else if k == "charbox" {
      value := if init then "'" + tokens[3].value + "'" else "0";
      assert v + " db " + value == v + " " + "db" + " " + value;
    } else if k == "stringbox" {
      value := (if init then "\"" + tokens[3].value + "\"" else "\"\"") + ", 0";
      assert v + " db " + (if init then "\"" + tokens[3].value + "\"" else "\"\"") + ", 0" == v + " " + "db" + " " + value;
    } else {
      value := if init && tokens[3].value == "true" then "1" else "0";
      assert v + " db " + value == v + " " + "db" + " " + value;
    }
    assert DataLine(k, v, tokens).value == v + " " + Directive(k) + " " + value;
  }

  // ---- output

  function PrintedCount(toks: seq<Token>): nat
    decreases |toks|
  {
    if toks == [] then 0 else (if Printed(toks[0]) then 1 else 0) + PrintedCount(toks[1..])
  }

  /** Every printed token adds three lines, every other token none. */
  lemma {:induction false} OutputLineCount(st: GenState, toks: seq<Token>)
    requires !st.closed
    ensures |OutputTokens(st, toks).lines| == |st.lines| + 3 * PrintedCount(toks)
    decreases |toks|
  {
    if toks != [] {
      OutputLineCount(OutputToken(st, toks[0]), toks[1..]);
    }
  }

  /**
   * Printing keeps every existing binding and the label counter; a name it
   * adds is an identifier it printed that was unknown, bound to the empty
   * location.
   */
  lemma {:induction false} OutputKeepsSymbols(st: GenState, toks: seq<Token>)
    ensures var r := OutputTokens(st, toks);
      && r.labelCounter == st.labelCounter
      && (forall k :: k in st.symbols ==> k in r.symbols && r.symbols[k] == st.symbols[k])
      && (forall k :: k in r.symbols && k !in st.symbols ==> r.symbols[k] == "" && PrintsIdentifier(toks, k))
    decreases |toks|
  {
    if toks != [] {
      OutputKeepsSymbols(OutputToken(st, toks[0]), toks[1..]);
    }
  }

  predicate PrintsIdentifier(toks: seq<Token>, name: string) {
    exists i :: 0 <= i < |toks| && toks[i].kind == Identifier && toks[i].value == name
  }

  // ---- conditions

  predicate IsComparison(op: string) {
    op == "==" || op == "!=" || op == "<" || op == "<=" || op == ">" || op == ">="
  }

  /** Whether a comparison holds between two values. */
  predicate Holds(op: string, a: int, b: int) {
    if op == "==" then a == b
    else if op == "!=" then a != b
    else if op == "<" then a < b
    else if op == "<=" then a <= b
    else if op == ">" then a > b
    else op == ">=" && a >= b
  }

  /**
   * Whether a conditional jump is taken after comparing `a` with `b`, read
   * from the flags the comparison sets: equal (ZF) and signed-less (SF != OF).
   */
  predicate Taken(j: string, a: int, b: int) {
    var equal := a == b;
    var less := a < b;
    (j == "je" && equal) || (j == "jne" && !equal) || (j == "jl" && less)
    || (j == "jle" && (less || equal)) || (j == "jg" && !less && !equal) || (j == "jge" && !less)
  }

  /** Exactly the six comparisons have a jump, and it is taken exactly when the comparison holds. */
  lemma JumpMatchesComparison(op: string, a: int, b: int)
    ensures Jump(op).Some? <==> IsComparison(op)
    ensures Jump(op).Some? ==> (Taken(Jump(op).value, a, b) <==> Holds(op, a, b))
  {
  }

  /**
   * `cmp` is the code of the three-token condition `cond` under the symbol
   * table `symbols`: a `cmp` of the left operand's location (empty for a
   * name not in the table) with the right operand, then, exactly when the
   * operator is one of the six comparisons, its jump to `target`.
   */
  predicate ComparisonCode(symbols: map<string, string>, cond: seq<Token>, target: string, cmp: seq<string>)
    requires |cond| == 3
  {
    var op := cond[1].value;
    var location := if cond[0].value in symbols then symbols[cond[0].value] else "";
    && 1 <= |cmp| <= 2
    && cmp[0] == "    cmp " + location + ", " + cond[2].value
    && (|cmp| == 2 <==> IsComparison(op))
    && (IsComparison(op) ==> cmp[1] == "    " + Jump(op).value + " " + target)
  }

  /**
   * A condition that is not three tokens long is ignored; otherwise it
   * writes the comparison and, for a known operator, one jump to the target,
   * and a left operand missing from the symbol table is entered with an
   * empty location.
   */
  lemma CompareShape(st: GenState, cond: seq<Token>, target: string) returns (cmp: seq<string>)
    requires !st.closed
    ensures Compare(st, cond, target).lines == st.lines + cmp
    ensures |cond| != 3 ==> Compare(st, cond, target) == st && cmp == []
    ensures |cond| == 3 ==> ComparisonCode(st.symbols, cond, target, cmp)
    ensures |cond| == 3 ==>
      Compare(st, cond, target).symbols == if cond[0].value in st.symbols then st.symbols else st.symbols[cond[0].value := ""]
  {
    var r := Compare(st, cond, target);
    cmp := r.lines[|st.lines|..];
    if |cond| == 3 {
      JumpMatchesComparison(cond[1].value, 0, 0);
    }
  }

  // ---- shapes of the lowerings

  lemma IfHeadShape(st: GenState, s: ParsedStatement) returns (cmp: seq<string>)
    requires !st.closed
    ensures var n := st.labelCounter;
      IfHead(st, s).lines
        == st.lines + [SectionText, IfComment] + cmp + [JumpTo(Label("false_branch", n + 1)), Placed(Label("true_branch", n))]
    ensures |cmp| <= 2 && (|s.tokens| != 3 ==> cmp == [])
    ensures |s.tokens| == 3 ==> ComparisonCode(st.symbols, s.tokens, Label("true_branch", st.labelCounter), cmp)
  {
    var n := st.labelCounter;
    var st1 := Write(Write(st.(labelCounter := n + 3), SectionText), IfComment);
    cmp := CompareShape(st1, s.tokens, Label("true_branch", n));
  }

  lemma IfTailShape(st: GenState, s: ParsedStatement, n: nat) returns (alt: seq<string>)
    requires WellFormed(s) && !st.closed && IfTail(st, s, n).err.None?
    ensures IfTail(st, s, n).st.lines
      == st.lines + [JumpTo(Label("end_if", n + 2)), Placed(Label("false_branch", n + 1))] + alt + [Placed(Label("end_if", n + 2))]
    ensures |s.children| <= 1 ==> alt == []
    ensures |s.children| > 1 ==> alt == Written(IfMid(st, n), GenCode(IfMid(st, n), [s.children[1]]).st)
  {
    var mid := IfMid(st, n);
    var a := if |s.children| > 1 then SizeOfChild(s.children, 1); GenCode(mid, [s.children[1]]) else Emitted(mid, None);
    alt := a.st.lines[|mid.lines|..];
    assert a.st.lines == mid.lines + alt;
  }

  /**
   * The layout of a successful if: header, comparison, jump to the false
   * label, true label, the children, jump to the end label, false label,
   * the else part, end label; the labels carry the counter values n, n + 1
   * and n + 2.
   */
  lemma IfShape(st: GenState, s: ParsedStatement) returns (cmp: seq<string>, body: seq<string>, alt: seq<string>)
    requires WellFormed(s) && !st.closed && GenIf(st, s).err.None?
    ensures var n := st.labelCounter;
      GenIf(st, s).st.lines
        == st.lines + [SectionText, IfComment] + cmp + [JumpTo(Label("false_branch", n + 1)), Placed(Label("true_branch", n))]
           + body + [JumpTo(Label("end_if", n + 2)), Placed(Label("false_branch", n + 1))]
           + alt + [Placed(Label("end_if", n + 2))]
    ensures |cmp| <= 2 && (|s.children| <= 1 ==> alt == [])
    ensures |s.tokens| == 3 ==> ComparisonCode(st.symbols, s.tokens, Label("true_branch", st.labelCounter), cmp)
    ensures var head := IfHead(st, s); var b := GenCode(head, s.children);
      && body == Written(head, b.st)
      && (|s.children| > 1 ==> var mid := IfMid(b.st, st.labelCounter); alt == Written(mid, GenCode(mid, [s.children[1]]).st))
  {
    var n := st.labelCounter;
    var head := IfHead(st, s);
    cmp := IfHeadShape(st, s);
    var b := GenCode(head, s.children);
    body := b.st.lines[|head.lines|..];
    assert b.st.lines == head.lines + body;
    alt := IfTailShape(b.st, s, n);
  }

  /** The lines of an expression statement. */
  function ExpressionLines(s: ParsedStatement): seq<string> {
    [SectionText, "    ; Expression logic: " + Joined(s.tokens)]
  }

  /**
   * The child at index 1 of an if is generated twice: once among the
   * children after the true label, once more after the false label.
   */
  lemma ElseRepeatsSecondChild(st: GenState, s: ParsedStatement) returns (cmp: seq<string>)
    requires WellFormed(s) && !st.closed && |s.children| == 2
    requires s.children[0].kind == Expression && s.children[1].kind == Expression
    ensures GenIf(st, s).err.None?
    ensures var n := st.labelCounter;
      GenIf(st, s).st.lines
        == st.lines + [SectionText, IfComment] + cmp + [JumpTo(Label("false_branch", n + 1)), Placed(Label("true_branch", n))]
           + ExpressionLines(s.children[0]) + ExpressionLines(s.children[1])
           + [JumpTo(Label("end_if", n + 2)), Placed(Label("false_branch", n + 1))]
           + ExpressionLines(s.children[1]) + [Placed(Label("end_if", n + 2))]
  {
    var n := st.labelCounter;
    var head := IfHead(st, s);
    cmp := IfHeadShape(st, s);
    var c0 := s.children[0];
    var c1 := s.children[1];
    var h1 := ExpressionStatement(head, c0, [c1]);
    assert s.children == [c0] + [c1];
    GenCodeAppend(head, [c0], [c1]);
    var h2 := ExpressionStatement(h1, c1, []);
    assert [c1] + [] == [c1];
    var mid := IfMid(h2, n);
    var h3 := ExpressionStatement(mid, c1, []);
    assert [c1] + [] == [c1];
  }

  /** Generating an expression statement followed by other statements. */
  lemma ExpressionStatement(st: GenState, c: ParsedStatement, rest: seq<ParsedStatement>) returns (next: GenState)
    requires WellFormed(c) && c.kind == Expression && AllWellFormed(rest)
    ensures next == GenExpression(st, c)
    ensures !st.closed ==> next.lines == st.lines + ExpressionLines(c)
    ensures AllWellFormed([c] + rest) && GenCode(st, [c] + rest) == GenCode(next, rest)
  {
    next := GenExpression(st, c);
    assert ([c] + rest)[0] == c;
    assert ([c] + rest)[1..] == rest;
  }

  /**
   * The layout of a successful while: header, start label, comparison with a
   * jump back to the start label, the children, jump to the start label,
   * end label.
   */
  lemma WhileShape(st: GenState, s: ParsedStatement) returns (cmp: seq<string>, body: seq<string>)
    requires WellFormed(s) && !st.closed && GenWhile(st, s).err.None?
    ensures var n := st.labelCounter;
      GenWhile(st, s).st.lines
        == st.lines + [SectionText, WhileComment, Placed(Label("start_loop", n))] + cmp
           + body + [JumpTo(Label("start_loop", n)), Placed(Label("end_loop", n + 1))]
    ensures |cmp| <= 2 && (|s.tokens| != 3 ==> cmp == [])
    ensures |s.tokens| == 3 ==> ComparisonCode(st.symbols, s.tokens, Label("start_loop", st.labelCounter), cmp)
    ensures var head := WhileHead(st, s); body == Written(head, GenCode(head, s.children).st)
  {
    var n := st.labelCounter;
    var head := WhileHead(st, s);
    cmp := WhileHeadShape(st, s);
    var b := GenCode(head, s.children);
    body := b.st.lines[|head.lines|..];
    assert b.st.lines == head.lines + body;
  }

  lemma WhileHeadShape(st: GenState, s: ParsedStatement) returns (cmp: seq<string>)
    requires !st.closed
    ensures WhileHead(st, s).lines == st.lines + [SectionText, WhileComment, Placed(Label("start_loop", st.labelCounter))] + cmp
    ensures |cmp| <= 2 && (|s.tokens| != 3 ==> cmp == [])
    ensures |s.tokens| == 3 ==> ComparisonCode(st.symbols, s.tokens, Label("start_loop", st.labelCounter), cmp)
  {
    var n := st.labelCounter;
    var start := Label("start_loop", n);
    var st1 := Write(Write(Write(st.(labelCounter := n + 2), SectionText), WhileComment), Placed(start));
    cmp := CompareShape(st1, s.tokens, start);
  }
}
