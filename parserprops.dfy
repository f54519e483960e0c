/**
 * What the recursive-descent parser (parser/parser.py) builds, proved about
 * its reference definition in module ParserSpec: the operator levels fold to
 * the left, one level holds all four arithmetic operators, a statement that
 * starts with a name is a call or an assignment, an `if` without `else` has
 * no alternative, and `parse` stops at an EOF token. The last lemmas pin
 * down token sequences the parser rejects as written.
 */
module ParserProps {
  import opened Wrappers
  import opened Ast
  import opened ParserSpec

  /** A token on line 1. */
  function Tok(kind: string, value: string): Token {
    Token(kind, value, 1)
  }

  // ------------------------------------------------------------ left folding

  /**
   * `e` is `left` with zero or more binary operations whose operator is one
   * of `ops` stacked on its left side: `((left op r1) op r2) ...`.
   */
  predicate FoldedOnto(e: Expr, left: Expr, ops: set<string>) {
    e == left || (e.BinOp? && e.op in ops && FoldedOnto(e.left, left, ops))
  }

  /**
   * The loop of `addterm` folds to the left: whatever operators and factors
   * follow, the expression built so far ends up as the leftmost operand,
   * with every operation above it one of PLUS, MINUS, TIMES, DIVIDE.
   */
  lemma {:induction false} AddTailFoldsLeft(ts: seq<Token>, pos: nat, left: Expr)
    requires pos <= |ts| && AddTail(ts, pos, left).Ok?
    ensures FoldedOnto(AddTail(ts, pos, left).value.value, left, AddOps)
    decreases |ts| - pos
  {
    if AtAny(ts, pos, AddOps) {
      var right := Factor(ts, pos + 1).value;
      var folded := BinOp(ts[pos].kind, left, right.value);
      AddTailFoldsLeft(ts, right.next, folded);
      FoldedOntoTrans(AddTail(ts, right.next, folded).value.value, folded, left, AddOps);
    }
  }

  /** The loop of `relterm` folds to the left in the same way, over the six comparisons. */
  lemma {:induction false} RelTailFoldsLeft(ts: seq<Token>, pos: nat, left: Expr)
    requires pos <= |ts| && RelTail(ts, pos, left).Ok?
    ensures FoldedOnto(RelTail(ts, pos, left).value.value, left, RelOps)
    decreases |ts| - pos
  {
    if AtAny(ts, pos, RelOps) {
      var right := AddTerm(ts, pos + 1).value;
      var folded := BinOp(ts[pos].kind, left, right.value);
      RelTailFoldsLeft(ts, right.next, folded);
      FoldedOntoTrans(RelTail(ts, right.next, folded).value.value, folded, left, RelOps);
    }
  }

  /** The loop of `orterm` folds to the left, every operation spelled '||'. */
  lemma {:induction false} OrTailFoldsLeft(ts: seq<Token>, pos: nat, left: Expr)
    requires pos <= |ts| && OrTail(ts, pos, left).Ok?
    ensures FoldedOnto(OrTail(ts, pos, left).value.value, left, {"||"})
    decreases |ts| - pos
  {
    if At(ts, pos, "LOR") {
      var right := AndTerm(ts, pos + 1).value;
      var folded := BinOp("||", left, right.value);
      OrTailFoldsLeft(ts, right.next, folded);
      FoldedOntoTrans(OrTail(ts, right.next, folded).value.value, folded, left, {"||"});
    }
  }

  /** The loop of `andterm` folds to the left, every operation spelled '&&'. */
  lemma {:induction false} AndTailFoldsLeft(ts: seq<Token>, pos: nat, left: Expr)
    requires pos <= |ts| && AndTail(ts, pos, left).Ok?
    ensures FoldedOnto(AndTail(ts, pos, left).value.value, left, {"&&"})
    decreases |ts| - pos
  {
    if At(ts, pos, "LAND") {
      var right := RelTerm(ts, pos + 1).value;
      var folded := BinOp("&&", left, right.value);
      AndTailFoldsLeft(ts, right.next, folded);
      FoldedOntoTrans(AndTail(ts, right.next, folded).value.value, folded, left, {"&&"});
    }
  }

  /** Stacking on a fold of `left` one step up is still a fold of `left`. */
  lemma {:induction false} FoldedOntoTrans(e: Expr, mid: Expr, left: Expr, ops: set<string>)
    requires FoldedOnto(e, mid, ops) && mid.BinOp? && mid.op in ops && mid.left == left
    ensures FoldedOnto(e, left, ops)
    decreases e
  {
    if e != mid {
      FoldedOntoTrans(e.left, mid, left, ops);
    }
  }

  /** `1 - 2 - 3` is `(1 - 2) - 3`. */
  lemma SubtractionAssociatesLeft()
    ensures AddTerm([Tok("INTEGER", "1"), Tok("MINUS", "-"), Tok("INTEGER", "2"), Tok("MINUS", "-"), Tok("INTEGER", "3")], 0)
            == Ok(Parsed(BinOp("MINUS", BinOp("MINUS", Integer(1), Integer(2)), Integer(3)), 5))
  {
    var ts := [Tok("INTEGER", "1"), Tok("MINUS", "-"), Tok("INTEGER", "2"), Tok("MINUS", "-"), Tok("INTEGER", "3")];
    assert Numeral("1") == Ok(1) && Numeral("2") == Ok(2) && Numeral("3") == Ok(3);
    assert Factor(ts, 0) == Ok(Parsed(Integer(1), 1));
    assert Factor(ts, 2) == Ok(Parsed(Integer(2), 3));
    assert Factor(ts, 4) == Ok(Parsed(Integer(3), 5));
    var e := BinOp("MINUS", BinOp("MINUS", Integer(1), Integer(2)), Integer(3));
    assert AddTail(ts, 5, e) == Ok(Parsed(e, 5));
    assert AddTail(ts, 3, BinOp("MINUS", Integer(1), Integer(2))) == Ok(Parsed(e, 5));
  }

  /** TIMES shares the level of PLUS: `1 + 2 * 3` is `(1 + 2) * 3`. */
  lemma TimesDoesNotBindTighter()
    ensures AddTerm([Tok("INTEGER", "1"), Tok("PLUS", "+"), Tok("INTEGER", "2"), Tok("TIMES", "*"), Tok("INTEGER", "3")], 0)
            == Ok(Parsed(BinOp("TIMES", BinOp("PLUS", Integer(1), Integer(2)), Integer(3)), 5))
  {
    var ts := [Tok("INTEGER", "1"), Tok("PLUS", "+"), Tok("INTEGER", "2"), Tok("TIMES", "*"), Tok("INTEGER", "3")];
    assert Numeral("1") == Ok(1) && Numeral("2") == Ok(2) && Numeral("3") == Ok(3);
    assert Factor(ts, 0) == Ok(Parsed(Integer(1), 1));
    assert Factor(ts, 2) == Ok(Parsed(Integer(2), 3));
    assert Factor(ts, 4) == Ok(Parsed(Integer(3), 5));
    var e := BinOp("TIMES", BinOp("PLUS", Integer(1), Integer(2)), Integer(3));
    assert AddTail(ts, 5, e) == Ok(Parsed(e, 5));
    assert AddTail(ts, 3, BinOp("PLUS", Integer(1), Integer(2))) == Ok(Parsed(e, 5));
  }

  /** The token of a boolean literal, as the lexer makes it. */
  function BoolTok(v: bool): Token {
    if v then Tok("TRUE", "true") else Tok("FALSE", "false")
  }

  /** A boolean literal followed by no arithmetic or comparison operator is a whole comparison term. */
  lemma BoolRelTerm(ts: seq<Token>, pos: nat, v: bool)
    requires pos < |ts| && ts[pos] == BoolTok(v)
    requires !AtAny(ts, pos + 1, AddOps) && !AtAny(ts, pos + 1, RelOps)
    ensures RelTerm(ts, pos) == Ok(Parsed(Bool(v), pos + 1))
  {
    assert Factor(ts, pos) == Ok(Parsed(Bool(v), pos + 1));
    assert AddTail(ts, pos + 1, Bool(v)) == Ok(Parsed(Bool(v), pos + 1));
    assert AddTerm(ts, pos) == Ok(Parsed(Bool(v), pos + 1));
    assert RelTail(ts, pos + 1, Bool(v)) == Ok(Parsed(Bool(v), pos + 1));
  }

  /** A boolean literal followed by no operator is a whole expression. */
  lemma BoolExpression(ts: seq<Token>, pos: nat, v: bool)
    requires pos < |ts| && ts[pos] == BoolTok(v)
    requires !AtAny(ts, pos + 1, AddOps) && !AtAny(ts, pos + 1, RelOps)
    requires !At(ts, pos + 1, "LAND") && !At(ts, pos + 1, "LOR")
    ensures Expression(ts, pos) == Ok(Parsed(Bool(v), pos + 1))
  {
    BoolRelTerm(ts, pos, v);
    assert AndTail(ts, pos + 1, Bool(v)) == Ok(Parsed(Bool(v), pos + 1));
    assert AndTerm(ts, pos) == Ok(Parsed(Bool(v), pos + 1));
    assert OrTail(ts, pos + 1, Bool(v)) == Ok(Parsed(Bool(v), pos + 1));
  }

  /** The logical operators are built with the operator strings '&&' and '||', not their token types. */
  lemma LogicalOperatorSpellings(a: bool, b: bool)
    ensures Expression([BoolTok(a), Tok("LAND", "&&"), BoolTok(b)], 0) == Ok(Parsed(BinOp("&&", Bool(a), Bool(b)), 3))
    ensures Expression([BoolTok(a), Tok("LOR", "||"), BoolTok(b)], 0) == Ok(Parsed(BinOp("||", Bool(a), Bool(b)), 3))
  {
    var ts := [BoolTok(a), Tok("LAND", "&&"), BoolTok(b)];
    BoolRelTerm(ts, 0, a);
    BoolRelTerm(ts, 2, b);
    var e := BinOp("&&", Bool(a), Bool(b));
    assert AndTail(ts, 3, e) == Ok(Parsed(e, 3));
    assert AndTail(ts, 1, Bool(a)) == Ok(Parsed(e, 3));
    assert AndTerm(ts, 0) == Ok(Parsed(e, 3));
    assert OrTail(ts, 3, e) == Ok(Parsed(e, 3));
    var us := [BoolTok(a), Tok("LOR", "||"), BoolTok(b)];
    BoolRelTerm(us, 0, a);
    BoolRelTerm(us, 2, b);
    assert AndTail(us, 1, Bool(a)) == Ok(Parsed(Bool(a), 1));
    assert AndTerm(us, 0) == Ok(Parsed(Bool(a), 1));
    assert AndTail(us, 3, Bool(b)) == Ok(Parsed(Bool(b), 3));
    assert AndTerm(us, 2) == Ok(Parsed(Bool(b), 3));
    var f := BinOp("||", Bool(a), Bool(b));
    assert OrTail(us, 3, f) == Ok(Parsed(f, 3));
    assert OrTail(us, 1, Bool(a)) == Ok(Parsed(f, 3));
  }

  // ------------------------------------------------------------ factors

  /** A decimal numeral denotes a non-negative number: negative literals only arise as a prefix MINUS. */
  lemma {:induction false} DecimalValueNonNegative(s: string)
    requires forall i :: 0 <= i < |s| ==> IsDigit(s[i])
    ensures DecimalValue(s) >= 0
    decreases |s|
  {
    if |s| > 0 {
      DecimalValueNonNegative(s[..|s| - 1]);
    }
  }

  /** The decimal spelling of `n`, most significant digit first, with no leading zeros. */
  function DecimalString(n: nat): (s: string)
    ensures |s| > 0 && forall i :: 0 <= i < |s| ==> IsDigit(s[i])
  {
    var last := ['0' + ((n % 10) as char)];
    if n < 10 then last else DecimalString(n / 10) + last
  }

  /** `int()` reads back every number written in decimal. */
  lemma {:induction false} NumeralRoundTrip(n: nat)
    ensures Numeral(DecimalString(n)) == Ok(n)
  {
    DecimalValueOfString(n);
  }

  lemma {:induction false} DecimalValueOfString(n: nat)
    ensures DecimalValue(DecimalString(n)) == n
  {
    var s := DecimalString(n);
    if n >= 10 {
      DecimalValueOfString(n / 10);
      assert s[..|s| - 1] == DecimalString(n / 10);
    } else {
      assert s[..|s| - 1] == "";
    }
  }

  /**
   * `factor` on the token kinds it tests first: INTEGER is the numeral's
   * value, TRUE and FALSE are true exactly when the lexeme is "true", and
   * PLUS, MINUS, GROW wrap the following factor in a UnaryOp named by the
   * token type.
   */
  lemma FactorShapes(ts: seq<Token>, pos: nat)
    requires pos < |ts|
    ensures ts[pos].kind == "INTEGER" ==>
              Factor(ts, pos) == (if Numeral(ts[pos].value).Ok? then Ok(Parsed(Integer(Numeral(ts[pos].value).value), pos + 1))
                                  else Err(NotANumeral(ts[pos].value)))
    ensures ts[pos].kind == "INTEGER" && Factor(ts, pos).Ok? ==> Factor(ts, pos).value.value.ival >= 0
    ensures ts[pos].kind in {"TRUE", "FALSE"} ==> Factor(ts, pos) == Ok(Parsed(Bool(ts[pos].value == "true"), pos + 1))
    ensures ts[pos].kind in PrefixOps ==>
              (Factor(ts, pos).Ok? <==> Factor(ts, pos + 1).Ok?) &&
              (Factor(ts, pos).Ok? ==> Factor(ts, pos).value == Parsed(UnaryOp(ts[pos].kind, Factor(ts, pos + 1).value.value),
                                                                       Factor(ts, pos + 1).value.next))
  {
    if ts[pos].kind == "INTEGER" && Numeral(ts[pos].value).Ok? {
      DecimalValueNonNegative(ts[pos].value);
    }
  }

  // ------------------------------------------------------------ statements

  /**
   * A statement that starts with a name is a call statement when LPAREN
   * follows it, and otherwise an assignment to that name as a location
   * whose type is not yet known.
   */
  lemma NameStatementShape(ts: seq<Token>, pos: nat)
    requires pos < |ts| && ts[pos].kind == "ID" && Statement(ts, pos).Ok?
    ensures var s := Statement(ts, pos).value.value;
            (At(ts, pos + 1, "LPAREN") ==> s.ExprStmt? && s.node.FunctionCall? && s.node.name == ts[pos].value) &&
            (!At(ts, pos + 1, "LPAREN") ==> s.Assignment? && s.loc == NamedLocation(ts[pos].value, None))
  {
  }

  /**
   * An `if` has no alternative exactly when no ELSE follows the RBRACE of
   * its consequence; after an ELSE the alternative is the list of
   * statements of the second block, empty or not.
   */
  lemma IfAlternativeShapes(ts: seq<Token>, pos: nat)
    requires pos <= |ts| && IfStmt(ts, pos).Ok?
    ensures var t := Expression(ts, pos).value;
            var b := Consume(ts, t.next, "LBRACE").value;
            var c := Block(ts, b.next, []).value;
            var s := IfStmt(ts, pos).value.value;
            && s.If? && s.test == t.value && s.consequence == c.value
            && (s.alternative.NoElse? <==> !At(ts, c.next, "ELSE"))
            && (s.alternative.Else? ==>
                  s.alternative.stmts == Block(ts, Consume(ts, c.next + 1, "LBRACE").value.next, []).value.value)
  {
  }

  /**
   * With the lexer's lexeme 'const', `is_const` compares it with "CONST"
   * and is false: every declaration comes out as a variable.
   */
  lemma ConstLexemeIsNotConst(ts: seq<Token>, pos: nat)
    requires pos < |ts| && ts[pos] == Tok("CONST", "const") && Statement(ts, pos).Ok?
    ensures Statement(ts, pos).value.value.Variable? && !Statement(ts, pos).value.value.isConst
  {
  }

  /**
   * `parameters` consumes the RPAREN of an empty list and `funcdecl` then
   * asks for another one, so `func name()` followed by anything but a
   * second RPAREN is a syntax error.
   */
  lemma EmptyParameterListRejected(ts: seq<Token>, name: string, rest: seq<Token>)
    requires ts == [Tok("ID", name), Tok("LPAREN", "("), Tok("RPAREN", ")")] + rest
    requires !(|rest| > 0 && rest[0].kind == "RPAREN")
    ensures FuncDecl(ts, 0).Err?
  {
    assert Parameters(ts, 2) == Ok(Parsed([], 3));
    assert ParserSpec.Consume(ts, 3, "RPAREN").Err?;
  }

  /**
   * `break` does not consume a semicolon, so `break;` leaves a SEMI at the
   * start of the next statement and the program is a syntax error.
   */
  lemma BreakSemicolonRejected()
    ensures Parse([Tok("BREAK", "break"), Tok("SEMI", ";")]) == Err(SyntaxError(1, UnexpectedStatement))
  {
    var ts := [Tok("BREAK", "break"), Tok("SEMI", ";")];
    assert Statement(ts, 0) == Ok(Parsed(Break, 1));
    assert Statement(ts, 1) == Err(SyntaxError(1, UnexpectedStatement));
  }

  // ------------------------------------------------------------ programs

  /**
   * `parse` keeps the statements already collected, in order, in front of
   * the ones it adds, and adds at most one per token.
   */
  lemma {:induction false} ProgramFromExtends(ts: seq<Token>, pos: nat, acc: seq<Stmt>)
    requires pos <= |ts| && ProgramFrom(ts, pos, acc).Ok?
    ensures var p := ProgramFrom(ts, pos, acc).value;
            |acc| <= |p.stmts| <= |acc| + (|ts| - pos) && p.stmts[..|acc|] == acc
    decreases |ts| - pos
  {
    if pos < |ts| && ts[pos].kind != "EOF" {
      var s := Statement(ts, pos).value;
      ProgramFromExtends(ts, s.next, acc + [s.value]);
      var p := ProgramFrom(ts, pos, acc).value;
      assert p.stmts[..|acc| + 1][..|acc|] == p.stmts[..|acc|];
    }
  }

  /** An EOF token ends the program, whatever follows it; no tokens make an empty program. */
  lemma ParseStopsAtEof(rest: seq<Token>)
    ensures Parse([Tok("EOF", "")] + rest) == Ok(Program([]))
    ensures Parse([]) == Ok(Program([]))
  {
  }

  /** An INTEGER token followed by SEMI is a whole expression. */
  lemma IntegerExpression(ts: seq<Token>, pos: nat, digit: string)
    requires pos + 1 < |ts| && ts[pos] == Tok("INTEGER", digit) && ts[pos + 1].kind == "SEMI"
    requires |digit| == 1 && IsDigit(digit[0])
    ensures Expression(ts, pos) == Ok(Parsed(Integer(digit[0] as int - '0' as int), pos + 1))
  {
    var v := Integer(digit[0] as int - '0' as int);
    assert digit[..|digit| - 1] == "";
    assert DecimalValue(digit) == DecimalValue("") * 10 + v.ival;
    assert Numeral(digit) == Ok(v.ival);
    assert Factor(ts, pos) == Ok(Parsed(v, pos + 1));
    assert AddTail(ts, pos + 1, v) == Ok(Parsed(v, pos + 1));
    assert AddTerm(ts, pos) == Ok(Parsed(v, pos + 1));
    assert RelTail(ts, pos + 1, v) == Ok(Parsed(v, pos + 1));
    assert RelTerm(ts, pos) == Ok(Parsed(v, pos + 1));
    assert AndTail(ts, pos + 1, v) == Ok(Parsed(v, pos + 1));
    assert AndTerm(ts, pos) == Ok(Parsed(v, pos + 1));
    assert OrTail(ts, pos + 1, v) == Ok(Parsed(v, pos + 1));
    assert OrTerm(ts, pos) == Ok(Parsed(v, pos + 1));
  }

  /** `print 1; x = 2;` is a Print followed by an Assignment. */
  lemma TwoStatementProgram(ts: seq<Token>)
    requires ts == [Tok("PRINT", "print"), Tok("INTEGER", "1"), Tok("SEMI", ";"),
                    Tok("ID", "x"), Tok("ASSIGN", "="), Tok("INTEGER", "2"), Tok("SEMI", ";")]
    ensures Parse(ts) == Ok(Program([Print(Integer(1)), Assignment(NamedLocation("x", None), Integer(2))]))
  {
    IntegerExpression(ts, 1, "1");
    assert Statement(ts, 0) == Ok(Parsed(Print(Integer(1)), 3));
    IntegerExpression(ts, 5, "2");
    assert Statement(ts, 3) == Ok(Parsed(Assignment(NamedLocation("x", None), Integer(2)), 7));
    var done := [Print(Integer(1)), Assignment(NamedLocation("x", None), Integer(2))];
    assert ProgramFrom(ts, 7, done) == Ok(Program(done));
    assert [Print(Integer(1))] + [Assignment(NamedLocation("x", None), Integer(2))] == done;
    assert ProgramFrom(ts, 3, [Print(Integer(1))]) == Ok(Program(done));
    assert [] + [Print(Integer(1))] == [Print(Integer(1))];
    assert ProgramFrom(ts, 0, []) == Ok(Program(done));
  }
}
