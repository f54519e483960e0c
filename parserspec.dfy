/**
 * The meaning of the recursive-descent parser (parser/parser.py) as
 * functions over a token list: each production, started at position `pos`,
 * either raises or returns the node it builds together with the position
 * after it. The loops of the parser (the left-folding operator levels, the
 * statement lists up to `}`, the parameter and argument lists) are
 * recursive functions carrying what has been built so far.
 */
module ParserSpec {
  import opened Wrappers
  import opened Ast

  /** A token of the lexer: its type, its lexeme and its line. */
  datatype Token = Token(kind: string, value: string, lineno: int)

  /** What a `SyntaxError` message says: the token type `consume` wanted, or no statement / expression starts here. */
  datatype Reason = Expected(kind: string) | UnexpectedStatement | UnexpectedExpression

  datatype ParseError =
    /** `SyntaxError`, with the line of the token at the cursor. */
    | SyntaxError(line: int, reason: Reason)
    /** The cursor is past the last token: building the message reads `.lineno` of None, which raises instead. */
    | NoLineNumber
    /** `int()` of an INTEGER lexeme that is not a decimal numeral. */
    | NotANumeral(lexeme: string)

  /** A production's node and the position after it. */
  datatype Parsed<T> = Parsed(value: T, next: nat)

  /** `match(kind)` succeeds at `pos`. */
  predicate At(ts: seq<Token>, pos: nat, kind: string) {
    pos < |ts| && ts[pos].kind == kind
  }

  /** One of a chain of `match` calls joined by `or` succeeds at `pos`. */
  predicate AtAny(ts: seq<Token>, pos: nat, kinds: set<string>) {
    pos < |ts| && ts[pos].kind in kinds
  }

  /** Raising `SyntaxError` at `pos`. */
  function Raise<T>(ts: seq<Token>, pos: nat, reason: Reason): (r: Result<T, ParseError>)
    ensures r.Err?
    ensures r.error.SyntaxError? <==> pos < |ts|
    ensures r.error.SyntaxError? ==> r.error.line == ts[pos].lineno && r.error.reason == reason
  {
    if pos < |ts| then Err(SyntaxError(ts[pos].lineno, reason)) else Err(NoLineNumber)
  }

  /** `consume(kind, message)`: the token at `pos` when it has that type. */
  function Consume(ts: seq<Token>, pos: nat, kind: string): (r: Result<Parsed<Token>, ParseError>)
    ensures r.Ok? <==> At(ts, pos, kind)
    ensures r.Ok? ==> r.value.value == ts[pos] && r.value.value.kind == kind && r.value.next == pos + 1
    ensures r.Err? ==> r == Raise(ts, pos, Expected(kind))
  {
    if At(ts, pos, kind) then Ok(Parsed(ts[pos], pos + 1)) else Raise(ts, pos, Expected(kind))
  }

  // ------------------------------------------------------------ numerals

  predicate IsDigit(c: char) {
    '0' <= c <= '9'
  }

  /** The value of a string of decimal digits. */
  function DecimalValue(s: string): int
    requires forall i :: 0 <= i < |s| ==> IsDigit(s[i])
    decreases |s|
  {
    if |s| == 0 then 0 else DecimalValue(s[..|s| - 1]) * 10 + (s[|s| - 1] as int - '0' as int)
  }

  /**
   * `int(lexeme)` on a non-empty string of the ASCII digits '0'..'9'; any
   * other lexeme, a non-ASCII decimal digit included, is NotANumeral here.
   */
  function Numeral(s: string): (r: Result<int, ParseError>)
    ensures r.Ok? <==> |s| > 0 && forall i :: 0 <= i < |s| ==> IsDigit(s[i])
    ensures r.Err? ==> r.error == NotANumeral(s)
  {
    if |s| > 0 && forall i :: 0 <= i < |s| ==> IsDigit(s[i]) then Ok(DecimalValue(s)) else Err(NotANumeral(s))
  }

  // ------------------------------------------------------------ expressions

  /** The operators `relterm` folds, by token type. */
  const RelOps: set<string> := {"LT", "GT", "LE", "GE", "EQ", "NE"}

  /** The operators `addterm` folds, by token type: one level for all four. */
  const AddOps: set<string> := {"PLUS", "MINUS", "TIMES", "DIVIDE"}

  /** The prefix operators of `factor`. */
  const PrefixOps: set<string> := {"PLUS", "MINUS", "GROW"}

  /** `expression`. */
  function Expression(ts: seq<Token>, pos: nat): (r: Result<Parsed<Expr>, ParseError>)
    requires pos <= |ts|
    ensures r.Ok? ==> pos < r.value.next <= |ts|
    decreases |ts| - pos, 5
  {
    OrTerm(ts, pos)
  }

  /** `orterm`: `andterm`s joined by LOR, folded to the left as '||'. */
  function OrTerm(ts: seq<Token>, pos: nat): (r: Result<Parsed<Expr>, ParseError>)
    requires pos <= |ts|
    ensures r.Ok? ==> pos < r.value.next <= |ts|
    decreases |ts| - pos, 4
  {
    var l :- AndTerm(ts, pos);
    OrTail(ts, l.next, l.value)
  }

  function OrTail(ts: seq<Token>, pos: nat, left: Expr): (r: Result<Parsed<Expr>, ParseError>)
    requires pos <= |ts|
    ensures r.Ok? ==> pos <= r.value.next <= |ts|
    decreases |ts| - pos, 4
  {
    if At(ts, pos, "LOR") then
      var right :- AndTerm(ts, pos + 1);
      OrTail(ts, right.next, BinOp("||", left, right.value))
    else
      Ok(Parsed(left, pos))
  }

  /** `andterm`: `relterm`s joined by LAND, folded to the left as '&&'. */
  function AndTerm(ts: seq<Token>, pos: nat): (r: Result<Parsed<Expr>, ParseError>)
    requires pos <= |ts|
    ensures r.Ok? ==> pos < r.value.next <= |ts|
    decreases |ts| - pos, 3
  {
    var l :- RelTerm(ts, pos);
    AndTail(ts, l.next, l.value)
  }

  function AndTail(ts: seq<Token>, pos: nat, left: Expr): (r: Result<Parsed<Expr>, ParseError>)
    requires pos <= |ts|
    ensures r.Ok? ==> pos <= r.value.next <= |ts|
    decreases |ts| - pos, 3
  {
    if At(ts, pos, "LAND") then
      var right :- RelTerm(ts, pos + 1);
      AndTail(ts, right.next, BinOp("&&", left, right.value))
    else
      Ok(Parsed(left, pos))
  }

  /** `relterm`: `addterm`s joined by comparisons, folded to the left, each named by its token type. */
  function RelTerm(ts: seq<Token>, pos: nat): (r: Result<Parsed<Expr>, ParseError>)
    requires pos <= |ts|
    ensures r.Ok? ==> pos < r.value.next <= |ts|
    decreases |ts| - pos, 2
  {
    var l :- AddTerm(ts, pos);
    RelTail(ts, l.next, l.value)
  }

  function RelTail(ts: seq<Token>, pos: nat, left: Expr): (r: Result<Parsed<Expr>, ParseError>)
    requires pos <= |ts|
    ensures r.Ok? ==> pos <= r.value.next <= |ts|
    decreases |ts| - pos, 2
  {
    if AtAny(ts, pos, RelOps) then
      var right :- AddTerm(ts, pos + 1);
      RelTail(ts, right.next, BinOp(ts[pos].kind, left, right.value))
    else
      Ok(Parsed(left, pos))
  }

  /** `addterm`: `factor`s joined by PLUS, MINUS, TIMES and DIVIDE, folded to the left, each named by its token type. */
  function AddTerm(ts: seq<Token>, pos: nat): (r: Result<Parsed<Expr>, ParseError>)
    requires pos <= |ts|
    ensures r.Ok? ==> pos < r.value.next <= |ts|
    decreases |ts| - pos, 1
  {
    var l :- Factor(ts, pos);
    AddTail(ts, l.next, l.value)
  }

  function AddTail(ts: seq<Token>, pos: nat, left: Expr): (r: Result<Parsed<Expr>, ParseError>)
    requires pos <= |ts|
    ensures r.Ok? ==> pos <= r.value.next <= |ts|
    decreases |ts| - pos, 1
  {
    if AtAny(ts, pos, AddOps) then
      var right :- Factor(ts, pos + 1);
      AddTail(ts, right.next, BinOp(ts[pos].kind, left, right.value))
    else
      Ok(Parsed(left, pos))
  }

  /**
   * `factor`: a literal, a prefix operator applied to a factor, a
   * parenthesised expression, a cast `TYPE ( expression )`, a call or a
   * name.
   */
  function Factor(ts: seq<Token>, pos: nat): (r: Result<Parsed<Expr>, ParseError>)
    requires pos <= |ts|
    ensures r.Ok? ==> pos < r.value.next <= |ts|
    decreases |ts| - pos, 0
  {
    if At(ts, pos, "INTEGER") then
      var n :- Numeral(ts[pos].value);
      Ok(Parsed(Integer(n), pos + 1))
    else if At(ts, pos, "FLOAT") then
      Ok(Parsed(Float(ts[pos].value), pos + 1))
    else if At(ts, pos, "CHAR") then
      Ok(Parsed(Char(ts[pos].value), pos + 1))
    else if At(ts, pos, "TRUE") || At(ts, pos, "FALSE") then
      Ok(Parsed(Bool(ts[pos].value == "true"), pos + 1))
    else if AtAny(ts, pos, PrefixOps) then
      var x :- Factor(ts, pos + 1);
      Ok(Parsed(UnaryOp(ts[pos].kind, x.value), x.next))
    else if At(ts, pos, "LPAREN") then
      var e :- Expression(ts, pos + 1);
      var c :- Consume(ts, e.next, "RPAREN");
      Ok(Parsed(e.value, c.next))
    else if At(ts, pos, "TYPE") then
      var l :- Consume(ts, pos + 1, "LPAREN");
      var e :- Expression(ts, l.next);
      var c :- Consume(ts, e.next, "RPAREN");
      Ok(Parsed(TypeCast(ts[pos].value, e.value), c.next))
    else if At(ts, pos, "ID") then
      if At(ts, pos + 1, "LPAREN") then
        var a :- Arguments(ts, pos + 2);
        var c :- Consume(ts, a.next, "RPAREN");
        Ok(Parsed(FunctionCall(ts[pos].value, a.value), c.next))
      else
        Ok(Parsed(NamedLocation(ts[pos].value, None), pos + 1))
    else
      Raise(ts, pos, UnexpectedExpression)
  }

  /** `arguments`: none when the next token is RPAREN or there is none, else expressions separated by COMMA. */
  function Arguments(ts: seq<Token>, pos: nat): (r: Result<Parsed<seq<Expr>>, ParseError>)
    requires pos <= |ts|
    ensures r.Ok? ==> pos <= r.value.next <= |ts|
    decreases |ts| - pos, 7
  {
    if pos < |ts| && ts[pos].kind != "RPAREN" then ArgList(ts, pos, []) else Ok(Parsed([], pos))
  }

  function ArgList(ts: seq<Token>, pos: nat, acc: seq<Expr>): (r: Result<Parsed<seq<Expr>>, ParseError>)
    requires pos <= |ts|
    ensures r.Ok? ==> pos < r.value.next <= |ts|
    decreases |ts| - pos, 6
  {
    var e :- Expression(ts, pos);
    if At(ts, e.next, "COMMA") then ArgList(ts, e.next + 1, acc + [e.value]) else Ok(Parsed(acc + [e.value], e.next))
  }

  /**
   * `parameters`: an RPAREN ends an empty list (and is consumed); otherwise
   * `ID TYPE` pairs separated by COMMA.
   */
  function Parameters(ts: seq<Token>, pos: nat): (r: Result<Parsed<seq<Parameter>>, ParseError>)
    requires pos <= |ts|
    ensures r.Ok? ==> pos < r.value.next <= |ts|
  {
    if At(ts, pos, "RPAREN") then Ok(Parsed([], pos + 1)) else ParamList(ts, pos, [])
  }

  function ParamList(ts: seq<Token>, pos: nat, acc: seq<Parameter>): (r: Result<Parsed<seq<Parameter>>, ParseError>)
    requires pos <= |ts|
    ensures r.Ok? ==> pos < r.value.next <= |ts|
    decreases |ts| - pos
  {
    var n :- Consume(ts, pos, "ID");
    var t :- Consume(ts, n.next, "TYPE");
    var ps := acc + [Parameter(n.value.value, t.value.value)];
    if At(ts, t.next, "COMMA") then ParamList(ts, t.next + 1, ps) else Ok(Parsed(ps, t.next))
  }

  // ------------------------------------------------------------ statements

  /** `statement`: chosen by its first token. */
  function Statement(ts: seq<Token>, pos: nat): (r: Result<Parsed<Stmt>, ParseError>)
    requires pos <= |ts|
    ensures r.Ok? ==> pos < r.value.next <= |ts|
    decreases |ts| - pos, 0
  {
    if At(ts, pos, "ID") then AssignmentRest(ts, pos + 1, ts[pos].value)
    else if At(ts, pos, "VAR") || At(ts, pos, "CONST") then VarDecl(ts, pos + 1, ts[pos].value == "CONST")
    else if At(ts, pos, "FUNC") then FuncDecl(ts, pos + 1)
    else if At(ts, pos, "IF") then IfStmt(ts, pos + 1)
    else if At(ts, pos, "WHILE") then WhileStmt(ts, pos + 1)
    else if At(ts, pos, "BREAK") then Ok(Parsed(Break, pos + 1))
    else if At(ts, pos, "CONTINUE") then Ok(Parsed(Continue, pos + 1))
    else if At(ts, pos, "RETURN") then ReturnStmt(ts, pos + 1)
    else if At(ts, pos, "PRINT") then PrintStmt(ts, pos + 1)
    else Raise(ts, pos, UnexpectedStatement)
  }

  /** `assignment`, after the ID `name`: a call statement when LPAREN follows, else `= expression ;`. */
  function AssignmentRest(ts: seq<Token>, pos: nat, name: string): (r: Result<Parsed<Stmt>, ParseError>)
    requires pos <= |ts|
    ensures r.Ok? ==> pos < r.value.next <= |ts|
    decreases |ts| - pos, 1
  {
    if At(ts, pos, "LPAREN") then
      var a :- Arguments(ts, pos + 1);
      var c :- Consume(ts, a.next, "RPAREN");
      var d :- Consume(ts, c.next, "SEMI");
      Ok(Parsed(ExprStmt(FunctionCall(name, a.value)), d.next))
    else
      var c :- Consume(ts, pos, "ASSIGN");
      var e :- Expression(ts, c.next);
      var d :- Consume(ts, e.next, "SEMI");
      Ok(Parsed(Assignment(NamedLocation(name, None), e.value), d.next))
  }

  /** `vardecl`, after VAR or CONST: a name, an optional TYPE, an optional `= expression`, then SEMI. */
  function VarDecl(ts: seq<Token>, pos: nat, isConst: bool): (r: Result<Parsed<Stmt>, ParseError>)
    requires pos <= |ts|
    ensures r.Ok? ==> pos < r.value.next <= |ts|
    decreases |ts| - pos, 1
  {
    var n :- Consume(ts, pos, "ID");
    var t := if At(ts, n.next, "TYPE") then Some(ts[n.next].value) else None;
    var p := if t.Some? then n.next + 1 else n.next;
    if At(ts, p, "ASSIGN") then
      var e :- Expression(ts, p + 1);
      var c :- Consume(ts, e.next, "SEMI");
      Ok(Parsed(Variable(n.value.value, t, Some(e.value), isConst), c.next))
    else
      var c :- Consume(ts, p, "SEMI");
      Ok(Parsed(Variable(n.value.value, t, None, isConst), c.next))
  }

  /**
   * `funcdecl`, after FUNC: an optional IMPORT, the name, the parameters in
   * parentheses, an optional return TYPE, and a body in braces unless
   * imported.
   */
  function FuncDecl(ts: seq<Token>, pos: nat): (r: Result<Parsed<Stmt>, ParseError>)
    requires pos <= |ts|
    ensures r.Ok? ==> pos < r.value.next <= |ts|
    decreases |ts| - pos, 1
  {
    var imported := At(ts, pos, "IMPORT");
    var n :- Consume(ts, if imported then pos + 1 else pos, "ID");
    var l :- Consume(ts, n.next, "LPAREN");
    var ps :- Parameters(ts, l.next);
    var c :- Consume(ts, ps.next, "RPAREN");
    var rt := if At(ts, c.next, "TYPE") then Some(ts[c.next].value) else None;
    var after := if rt.Some? then c.next + 1 else c.next;
    if imported then
      Ok(Parsed(Function(n.value.value, ps.value, rt, []), after))
    else
      var b :- Consume(ts, after, "LBRACE");
      var body :- Block(ts, b.next, []);
      Ok(Parsed(Function(n.value.value, ps.value, rt, body.value), body.next))
  }

  /** `if_stmt`, after IF: the test, a block, and a block after ELSE when there is one. */
  function IfStmt(ts: seq<Token>, pos: nat): (r: Result<Parsed<Stmt>, ParseError>)
    requires pos <= |ts|
    ensures r.Ok? ==> pos < r.value.next <= |ts|
    decreases |ts| - pos, 1
  {
    var t :- Expression(ts, pos);
    var b :- Consume(ts, t.next, "LBRACE");
    var c :- Block(ts, b.next, []);
    if At(ts, c.next, "ELSE") then
      var l :- Consume(ts, c.next + 1, "LBRACE");
      var a :- Block(ts, l.next, []);
      Ok(Parsed(If(t.value, c.value, Else(a.value)), a.next))
    else
      Ok(Parsed(If(t.value, c.value, NoElse), c.next))
  }

  /** `while_stmt`, after WHILE: the test and a block. */
  function WhileStmt(ts: seq<Token>, pos: nat): (r: Result<Parsed<Stmt>, ParseError>)
    requires pos <= |ts|
    ensures r.Ok? ==> pos < r.value.next <= |ts|
    decreases |ts| - pos, 1
  {
    var t :- Expression(ts, pos);
    var b :- Consume(ts, t.next, "LBRACE");
    var body :- Block(ts, b.next, []);
    Ok(Parsed(While(t.value, body.value), body.next))
  }

  /** `return_stmt`, after RETURN: an expression (always present), then SEMI. */
  function ReturnStmt(ts: seq<Token>, pos: nat): (r: Result<Parsed<Stmt>, ParseError>)
    requires pos <= |ts|
    ensures r.Ok? ==> pos < r.value.next <= |ts|
    decreases |ts| - pos, 1
  {
    var e :- Expression(ts, pos);
    var c :- Consume(ts, e.next, "SEMI");
    Ok(Parsed(Return(Some(e.value)), c.next))
  }

  /** `print_stmt`, after PRINT: an expression, then SEMI. */
  function PrintStmt(ts: seq<Token>, pos: nat): (r: Result<Parsed<Stmt>, ParseError>)
    requires pos <= |ts|
    ensures r.Ok? ==> pos < r.value.next <= |ts|
    decreases |ts| - pos, 1
  {
    var e :- Expression(ts, pos);
    var c :- Consume(ts, e.next, "SEMI");
    Ok(Parsed(Print(e.value), c.next))
  }

  /** `while not match('RBRACE'): body.append(statement())`, with `acc` the statements so far. */
  function Block(ts: seq<Token>, pos: nat, acc: seq<Stmt>): (r: Result<Parsed<seq<Stmt>>, ParseError>)
    requires pos <= |ts|
    ensures r.Ok? ==> pos < r.value.next <= |ts|
    decreases |ts| - pos, 2
  {
    if At(ts, pos, "RBRACE") then
      Ok(Parsed(acc, pos + 1))
    else
      var s :- Statement(ts, pos);
      Block(ts, s.next, acc + [s.value])
  }

  // ------------------------------------------------------------ programs

  /** `parse`: statements until the tokens run out or an EOF token comes, with `acc` the statements so far. */
  function ProgramFrom(ts: seq<Token>, pos: nat, acc: seq<Stmt>): (r: Result<Program, ParseError>)
    requires pos <= |ts|
    ensures (pos == |ts| || ts[pos].kind == "EOF") ==> r == Ok(Program(acc))
    ensures r.Ok? ==> |r.value.stmts| <= |acc| + (|ts| - pos)
    decreases |ts| - pos
  {
    if pos < |ts| && ts[pos].kind != "EOF" then
      var s :- Statement(ts, pos);
      ProgramFrom(ts, s.next, acc + [s.value])
    else
      Ok(Program(acc))
  }

  /** `parse` from the first token: no statements when the tokens start with EOF, and at most one per token. */
  function Parse(ts: seq<Token>): (r: Result<Program, ParseError>)
    ensures (|ts| == 0 || ts[0].kind == "EOF") ==> r == Ok(Program([]))
    ensures r.Ok? ==> |r.value.stmts| <= |ts|
  {
    ProgramFrom(ts, 0, [])
  }
}
