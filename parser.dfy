/**
 * The recursive-descent parser of parser/parser.py as it runs: a `Parser`
 * holding the token list and a cursor `current` that `match` and `consume`
 * move forward. Every production is proved to do what the function of the
 * same name in ParserSpec says, started at the cursor it found: raise the
 * same error, or return the same node and leave the cursor after it.
 */
module Parsing {
  import opened Wrappers
  import opened Ast
  import opened ParserSpec

  /** A method's outcome is the production's: the same error, or the same node with the cursor after it. */
  ghost predicate Follows<T>(r: Result<T, ParseError>, s: Result<Parsed<T>, ParseError>, current: nat) {
    && (r.Ok? <==> s.Ok?)
    && (r.Err? ==> r.error == s.error)
    && (r.Ok? ==> r.value == s.value.value && current == s.value.next)
  }

  class Parser {
    const tokens: seq<Token>
    var current: nat

    constructor (tokens: seq<Token>)
      ensures this.tokens == tokens && current == 0 && Valid()
    {
      this.tokens := tokens;
      current := 0;
    }

    /** The cursor never passes the end: it only moves over a token that is there. */
    ghost predicate Valid()
      reads this
    {
      current <= |tokens|
    }

    /** `peek`: the token at the cursor, or None past the end. */
    function Peek(): (p: Option<Token>)
      reads this
      ensures p.Some? <==> current < |tokens|
      ensures p.Some? ==> p.value == tokens[current] && ParserSpec.At(tokens, current, p.value.kind)
    {
      if current < |tokens| then Some(tokens[current]) else None
    }

    /** `advance`: the token at the cursor, and the cursor one further. */
    method Advance() returns (t: Option<Token>)
      modifies this
      ensures t == old(Peek()) && current == old(current) + 1
    {
      t := Peek();
      current := current + 1;
    }

    /** `match(kind)`: moves over the next token exactly when it has that type. */
    method Match(kind: string) returns (b: bool)
      requires Valid()
      modifies this
      ensures Valid() && b == At(tokens, old(current), kind)
      ensures current == if b then old(current) + 1 else old(current)
    {
      var p := Peek();
      if p.Some? && p.value.kind == kind {
        var _ := Advance();
        return true;
      }
      return false;
    }

    /**
     * `match(k1) or match(k2) or ...`: the first `match` that succeeds moves
     * over the token and ends the chain, so the chain moves over the next
     * token exactly when its type is one of `kinds`.
     */
    method MatchAny(kinds: set<string>) returns (b: bool)
      requires Valid()
      modifies this
      ensures Valid() && b == AtAny(tokens, old(current), kinds)
      ensures current == if b then old(current) + 1 else old(current)
    {
      var p := Peek();
      if p.Some? && p.value.kind in kinds {
        var _ := Advance();
        return true;
      }
      return false;
    }

    /** `consume(kind, message)`: the token matched, or `SyntaxError` with the line of the token at the cursor. */
    method Consume(kind: string) returns (r: Result<Token, ParseError>)
      requires Valid()
      modifies this
      ensures Valid() && Follows(r, ParserSpec.Consume(tokens, old(current), kind), current)
    {
      var m := Match(kind);
      if m {
        return Ok(tokens[current - 1]);
      }
      var p := Peek();
      if p.None? {
        return Err(NoLineNumber);
      }
      return Err(SyntaxError(p.value.lineno, Expected(kind)));
    }

    // ---------------------------------------------------------- programs

    /** `parse`: statements until the tokens run out or an EOF token comes. */
    method Parse() returns (r: Result<Program, ParseError>)
      requires Valid()
      modifies this
      ensures r == ProgramFrom(tokens, old(current), [])
    {
      ghost var whole := ProgramFrom(tokens, current, []);
      var statements: seq<Stmt> := [];
      while Peek().Some? && Peek().value.kind != "EOF"
        invariant Valid() && whole == ProgramFrom(tokens, current, statements)
        decreases |tokens| - current
      {
        var s := Statement();
        if s.Err? {
          return Err(s.error);
        }
        statements := statements + [s.value];
      }
      return Ok(Program(statements));
    }

    // ---------------------------------------------------------- statements

    /** `statement`: the production chosen by the first token. */
    method Statement() returns (r: Result<Stmt, ParseError>)
      requires Valid()
      modifies this
      ensures Valid() && Follows(r, ParserSpec.Statement(tokens, old(current)), current)
      decreases |tokens| - current, 2
    {
      var m := Match("ID");
      if m {
        r := AssignmentStmt();
        return;
      }
      r := DeclStmt();
    }

    /** The declarations of `statement`: VAR or CONST, FUNC, else the rest. */
    method DeclStmt() returns (r: Result<Stmt, ParseError>)
      requires Valid() && !At(tokens, current, "ID")
      modifies this
      ensures Valid() && Follows(r, ParserSpec.Statement(tokens, old(current)), current)
      decreases |tokens| - current, 1
    {
      var m := Match("VAR");
      if !m {
        m := Match("CONST");
      }
      if m {
        r := VarDecl();
        return;
      }
      m := Match("FUNC");
      if m {
        r := FuncDecl();
        return;
      }
      r := ControlStmt();
    }

    /** The rest of `statement`: IF, WHILE, BREAK, CONTINUE, RETURN, PRINT, or no statement at all. */
    method ControlStmt() returns (r: Result<Stmt, ParseError>)
      requires Valid() && !At(tokens, current, "ID") && !At(tokens, current, "VAR") && !At(tokens, current, "CONST")
      requires !At(tokens, current, "FUNC")
      modifies this
      ensures Valid() && Follows(r, ParserSpec.Statement(tokens, old(current)), current)
      decreases |tokens| - current, 0
    {
      var m := Match("IF");
      if m {
        r := IfStmt();
        return;
      }
      m := Match("WHILE");
      if m {
        r := WhileStmt();
        return;
      }
      m := Match("BREAK");
      if m {
        return Ok(Break);
      }
      m := Match("CONTINUE");
      if m {
        return Ok(Continue);
      }
      m := Match("RETURN");
      if m {
        r := ReturnStmt();
        return;
      }
      m := Match("PRINT");
      if m {
        r := PrintStmt();
        return;
      }
      var p := Peek();
      if p.None? {
        return Err(NoLineNumber);
      }
      return Err(SyntaxError(p.value.lineno, UnexpectedStatement));
    }

    /** `assignment`, with the ID just matched: a call statement when LPAREN follows, else `= expression ;`. */
    method AssignmentStmt() returns (r: Result<Stmt, ParseError>)
      requires Valid() && 0 < current
      modifies this
      ensures Valid() && Follows(r, AssignmentRest(tokens, old(current), tokens[old(current) - 1].value), current)
      decreases |tokens| - current, 2
    {
      var location := tokens[current - 1];
      var m := Match("LPAREN");
      if m {
        var arguments := Arguments();
        if arguments.Err? {
          return Err(arguments.error);
        }
        var c := Consume("RPAREN");
        if c.Err? {
          return Err(c.error);
        }
        c := Consume("SEMI");
        if c.Err? {
          return Err(c.error);
        }
        return Ok(ExprStmt(FunctionCall(location.value, arguments.value)));
      }
      var c := Consume("ASSIGN");
      if c.Err? {
        return Err(c.error);
      }
      var expression := Expression();
      if expression.Err? {
        return Err(expression.error);
      }
      c := Consume("SEMI");
      if c.Err? {
        return Err(c.error);
      }
      return Ok(Assignment(NamedLocation(location.value, None), expression.value));
    }

    /** `vardecl`, with VAR or CONST just matched; `is_const` compares that token's lexeme with "CONST". */
    method VarDecl() returns (r: Result<Stmt, ParseError>)
      requires Valid() && 0 < current
      modifies this
      ensures Valid() && Follows(r, ParserSpec.VarDecl(tokens, old(current), tokens[old(current) - 1].value == "CONST"), current)
      decreases |tokens| - current, 2
    {
      var isConst := tokens[current - 1].value == "CONST";
      var name := Consume("ID");
      if name.Err? {
        return Err(name.error);
      }
      var varType: Option<TypeName> := None;
      var m := Match("TYPE");
      if m {
        varType := Some(tokens[current - 1].value);
      }
      var value: Option<Expr> := None;
      m := Match("ASSIGN");
      if m {
        var e := Expression();
        if e.Err? {
          return Err(e.error);
        }
        value := Some(e.value);
      }
      var c := Consume("SEMI");
      if c.Err? {
        return Err(c.error);
      }
      return Ok(Variable(name.value.value, varType, value, isConst));
    }

    /** `funcdecl`, with FUNC just matched. */
    method FuncDecl() returns (r: Result<Stmt, ParseError>)
      requires Valid()
      modifies this
      ensures Valid() && Follows(r, ParserSpec.FuncDecl(tokens, old(current)), current)
      decreases |tokens| - current, 2
    {
      var isImported := Match("IMPORT");
      var name := Consume("ID");
      if name.Err? {
        return Err(name.error);
      }
      var c := Consume("LPAREN");
      if c.Err? {
        return Err(c.error);
      }
      var parameters := Parameters();
      if parameters.Err? {
        return Err(parameters.error);
      }
      c := Consume("RPAREN");
      if c.Err? {
        return Err(c.error);
      }
      var returnType: Option<TypeName> := None;
      var m := Match("TYPE");
      if m {
        returnType := Some(tokens[current - 1].value);
      }
      var body: seq<Stmt> := [];
      if !isImported {
        c := Consume("LBRACE");
        if c.Err? {
          return Err(c.error);
        }
        var b := Block();
        if b.Err? {
          return Err(b.error);
        }
        body := b.value;
      }
      return Ok(Function(name.value.value, parameters.value, returnType, body));
    }

    /** `if_stmt`, with IF just matched. */
    method IfStmt() returns (r: Result<Stmt, ParseError>)
      requires Valid()
      modifies this
      ensures Valid() && Follows(r, ParserSpec.IfStmt(tokens, old(current)), current)
      decreases |tokens| - current, 2
    {
      var test := Expression();
      if test.Err? {
        return Err(test.error);
      }
      var c := Consume("LBRACE");
      if c.Err? {
        return Err(c.error);
      }
      var consequence := Block();
      if consequence.Err? {
        return Err(consequence.error);
      }
      var alternative := NoElse;
      var m := Match("ELSE");
      if m {
        c := Consume("LBRACE");
        if c.Err? {
          return Err(c.error);
        }
        var a := Block();
        if a.Err? {
          return Err(a.error);
        }
        alternative := Else(a.value);
      }
      return Ok(If(test.value, consequence.value, alternative));
    }

    /** `while_stmt`, with WHILE just matched. */
    method WhileStmt() returns (r: Result<Stmt, ParseError>)
      requires Valid()
      modifies this
      ensures Valid() && Follows(r, ParserSpec.WhileStmt(tokens, old(current)), current)
      decreases |tokens| - current, 2
    {
      var test := Expression();
      if test.Err? {
        return Err(test.error);
      }
      var c := Consume("LBRACE");
      if c.Err? {
        return Err(c.error);
      }
      var body := Block();
      if body.Err? {
        return Err(body.error);
      }
      return Ok(While(test.value, body.value));
    }

    /** `return_stmt`, with RETURN just matched. */
    method ReturnStmt() returns (r: Result<Stmt, ParseError>)
      requires Valid()
      modifies this
      ensures Valid() && Follows(r, ParserSpec.ReturnStmt(tokens, old(current)), current)
      decreases |tokens| - current, 2
    {
      var expression := Expression();
      if expression.Err? {
        return Err(expression.error);
      }
      var c := Consume("SEMI");
      if c.Err? {
        return Err(c.error);
      }
      return Ok(Return(Some(expression.value)));
    }

    /** `print_stmt`, with PRINT just matched. */
    method PrintStmt() returns (r: Result<Stmt, ParseError>)
      requires Valid()
      modifies this
      ensures Valid() && Follows(r, ParserSpec.PrintStmt(tokens, old(current)), current)
      decreases |tokens| - current, 2
    {
      var expression := Expression();
      if expression.Err? {
        return Err(expression.error);
      }
      var c := Consume("SEMI");
      if c.Err? {
        return Err(c.error);
      }
      return Ok(Print(expression.value));
    }

    /** The loop `while not match('RBRACE'): body.append(statement())` of the block-bodied statements. */
    method Block() returns (r: Result<seq<Stmt>, ParseError>)
      requires Valid()
      modifies this
      ensures Valid() && Follows(r, ParserSpec.Block(tokens, old(current), []), current)
      decreases |tokens| - current, 3
    {
      ghost var whole := ParserSpec.Block(tokens, current, []);
      var body: seq<Stmt> := [];
      while true
        invariant Valid() && old(current) <= current
        invariant whole == ParserSpec.Block(tokens, current, body)
        decreases |tokens| - current
      {
        var closed := Match("RBRACE");
        if closed {
          return Ok(body);
        }
        var s := Statement();
        if s.Err? {
          return Err(s.error);
        }
        body := body + [s.value];
      }
    }

    // ---------------------------------------------------------- expressions

    /** `expression`. */
    method Expression() returns (r: Result<Expr, ParseError>)
      requires Valid()
      modifies this
      ensures Valid() && Follows(r, ParserSpec.Expression(tokens, old(current)), current)
      decreases |tokens| - current, 6
    {
      r := OrTerm();
    }

    /** `orterm`: `andterm`s joined by LOR, folded to the left. */
    method OrTerm() returns (r: Result<Expr, ParseError>)
      requires Valid()
      modifies this
      ensures Valid() && Follows(r, ParserSpec.OrTerm(tokens, old(current)), current)
      decreases |tokens| - current, 5
    {
      var l := AndTerm();
      if l.Err? {
        return Err(l.error);
      }
      var left := l.value;
      ghost var whole := OrTail(tokens, current, left);
      while true
        invariant Valid() && old(current) <= current
        invariant whole == OrTail(tokens, current, left)
        decreases |tokens| - current
      {
        var m := Match("LOR");
        if !m {
          return Ok(left);
        }
        var op := "||";
        var right := AndTerm();
        if right.Err? {
          return Err(right.error);
        }
        left := BinOp(op, left, right.value);
      }
    }

    /** `andterm`: `relterm`s joined by LAND, folded to the left. */
    method AndTerm() returns (r: Result<Expr, ParseError>)
      requires Valid()
      modifies this
      ensures Valid() && Follows(r, ParserSpec.AndTerm(tokens, old(current)), current)
      decreases |tokens| - current, 4
    {
      var l := RelTerm();
      if l.Err? {
        return Err(l.error);
      }
      var left := l.value;
      ghost var whole := AndTail(tokens, current, left);
      while true
        invariant Valid() && old(current) <= current
        invariant whole == AndTail(tokens, current, left)
        decreases |tokens| - current
      {
        var m := Match("LAND");
        if !m {
          return Ok(left);
        }
        var op := "&&";
        var right := RelTerm();
        if right.Err? {
          return Err(right.error);
        }
        left := BinOp(op, left, right.value);
      }
    }

    /** `relterm`: `addterm`s joined by comparisons, folded to the left. */
    method RelTerm() returns (r: Result<Expr, ParseError>)
      requires Valid()
      modifies this
      ensures Valid() && Follows(r, ParserSpec.RelTerm(tokens, old(current)), current)
      decreases |tokens| - current, 3
    {
      var l := AddTerm();
      if l.Err? {
        return Err(l.error);
      }
      var left := l.value;
      ghost var whole := RelTail(tokens, current, left);
      while true
        invariant Valid() && old(current) <= current
        invariant whole == RelTail(tokens, current, left)
        decreases |tokens| - current
      {
        var m := MatchAny(RelOps);
        if !m {
          return Ok(left);
        }
        var op := tokens[current - 1].kind;
        var right := AddTerm();
        if right.Err? {
          return Err(right.error);
        }
        left := BinOp(op, left, right.value);
      }
    }

    /** `addterm`: `factor`s joined by PLUS, MINUS, TIMES and DIVIDE, folded to the left. */
    method AddTerm() returns (r: Result<Expr, ParseError>)
      requires Valid()
      modifies this
      ensures Valid() && Follows(r, ParserSpec.AddTerm(tokens, old(current)), current)
      decreases |tokens| - current, 2
    {
      var l := Factor();
      if l.Err? {
        return Err(l.error);
      }
      var left := l.value;
      ghost var whole := AddTail(tokens, current, left);
      while true
        invariant Valid() && old(current) <= current
        invariant whole == AddTail(tokens, current, left)
        decreases |tokens| - current
      {
        var m := MatchAny(AddOps);
        if !m {
          return Ok(left);
        }
        var op := tokens[current - 1].kind;
        var right := Factor();
        if right.Err? {
          return Err(right.error);
        }
        left := BinOp(op, left, right.value);
      }
    }

    /** `factor`: the literals first, then a prefix operator, then the rest. */
    method Factor() returns (r: Result<Expr, ParseError>)
      requires Valid()
      modifies this
      ensures Valid() && Follows(r, ParserSpec.Factor(tokens, old(current)), current)
      decreases |tokens| - current, 1
    {
      var m := Match("INTEGER");
      if m {
        var n := Numeral(tokens[current - 1].value);
        if n.Err? {
          return Err(n.error);
        }
        return Ok(Integer(n.value));
      }
      m := Match("FLOAT");
      if m {
        return Ok(Float(tokens[current - 1].value));
      }
      m := Match("CHAR");
      if m {
        return Ok(Char(tokens[current - 1].value));
      }
      m := Match("TRUE");
      if !m {
        m := Match("FALSE");
      }
      if m {
        return Ok(Bool(tokens[current - 1].value == "true"));
      }
      m := MatchAny(PrefixOps);
      if m {
        var op := tokens[current - 1].kind;
        var operand := Factor();
        if operand.Err? {
          return Err(operand.error);
        }
        return Ok(UnaryOp(op, operand.value));
      }
      r := Primary();
    }

    /** The rest of `factor`: a parenthesised expression, a cast, a call or a name, or no expression at all. */
    method Primary() returns (r: Result<Expr, ParseError>)
      requires Valid()
      requires !At(tokens, current, "INTEGER") && !At(tokens, current, "FLOAT") && !At(tokens, current, "CHAR")
      requires !At(tokens, current, "TRUE") && !At(tokens, current, "FALSE") && !AtAny(tokens, current, PrefixOps)
      modifies this
      ensures Valid() && Follows(r, ParserSpec.Factor(tokens, old(current)), current)
      decreases |tokens| - current, 0
    {
      var m := Match("LPAREN");
      if m {
        var e := Expression();
        if e.Err? {
          return Err(e.error);
        }
        var c := Consume("RPAREN");
        if c.Err? {
          return Err(c.error);
        }
        return Ok(e.value);
      }
      m := Match("TYPE");
      if m {
        var t := tokens[current - 1].value;
        var c := Consume("LPAREN");
        if c.Err? {
          return Err(c.error);
        }
        var e := Expression();
        if e.Err? {
          return Err(e.error);
        }
        c := Consume("RPAREN");
        if c.Err? {
          return Err(c.error);
        }
        return Ok(TypeCast(t, e.value));
      }
      m := Match("ID");
      if m {
        var name := tokens[current - 1].value;
        m := Match("LPAREN");
        if m {
          var arguments := Arguments();
          if arguments.Err? {
            return Err(arguments.error);
          }
          var c := Consume("RPAREN");
          if c.Err? {
            return Err(c.error);
          }
          return Ok(FunctionCall(name, arguments.value));
        }
        return Ok(NamedLocation(name, None));
      }
      var p := Peek();
      if p.None? {
        return Err(NoLineNumber);
      }
      return Err(SyntaxError(p.value.lineno, UnexpectedExpression));
    }

    /** `parameters`, after LPAREN: an RPAREN here ends an empty list and is consumed; otherwise `ID TYPE` pairs separated by COMMA. */
    method Parameters() returns (r: Result<seq<Parameter>, ParseError>)
      requires Valid()
      modifies this
      ensures Valid() && Follows(r, ParserSpec.Parameters(tokens, old(current)), current)
    {
      var params: seq<Parameter> := [];
      var m := Match("RPAREN");
      if m {
        return Ok(params);
      }
      ghost var whole := ParamList(tokens, current, []);
      while true
        invariant Valid() && whole == ParamList(tokens, current, params)
        decreases |tokens| - current
      {
        var name := Consume("ID");
        if name.Err? {
          return Err(name.error);
        }
        var paramType := Consume("TYPE");
        if paramType.Err? {
          return Err(paramType.error);
        }
        params := params + [Parameter(name.value.value, paramType.value.value)];
        var comma := Match("COMMA");
        if !comma {
          return Ok(params);
        }
      }
    }

    /** `arguments`, after LPAREN: none when the next token is RPAREN or there is none, else expressions separated by COMMA. */
    method Arguments() returns (r: Result<seq<Expr>, ParseError>)
      requires Valid()
      modifies this
      ensures Valid() && Follows(r, ParserSpec.Arguments(tokens, old(current)), current)
      decreases |tokens| - current, 7
    {
      var args: seq<Expr> := [];
      var p := Peek();
      if p.Some? && p.value.kind != "RPAREN" {
        ghost var whole := ArgList(tokens, current, []);
        while true
          invariant Valid() && old(current) <= current
          invariant whole == ArgList(tokens, current, args)
          decreases |tokens| - current
        {
          var e := Expression();
          if e.Err? {
            return Err(e.error);
          }
          args := args + [e.value];
          var comma := Match("COMMA");
          if !comma {
            return Ok(args);
          }
        }
      }
      return Ok(args);
    }
  }
}
