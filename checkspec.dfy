/**
 * The meaning of the semantic checker (semantic/check.py) as functions over a
 * chain of scopes. Each statement may bind names in the innermost scope and
 * create child scopes; a failure keeps whatever it had already changed, as the
 * raised exception does. Expressions only read the scopes; the checker's
 * writes of `NamedLocation.type` are returned as an annotated tree.
 */
module CheckSpec {
  import opened Wrappers
  import opened Ast
  import opened TypeSys
  import opened Scopes

  /** Which check raised; the checker itself reports every failure as one kind of error. */
  datatype CheckError =
    | CannotAssign
    | IfTestNotBool
    | WhileTestNotBool
    | NotInWhile
    | ReturnOutsideFunction
    | ReturnTypeMismatch
    | AlreadyDefined(name: string)
    | VariableTypeMismatch(name: string)
    | MissingReturn(name: string)
    | BadBinOp(op: string)
    | BadUnaryOp(op: string)
    | UndefinedFunction(name: string)
    | NotCallable(name: string)          // the bound value has no `parameters`
    | ArityMismatch(name: string)
    | ArgTypeMismatch(name: string, param: string)
    | UndefinedVariable(name: string)
    | NoTypeAttribute(name: string)      // the bound value has no `type`
    | AddFailed(name: string)            // `add` of a name already in the table
    | RemoveFailed(name: string)         // `remove` of a name not in the table

  /** An expression's type (None is Python's None) and the expression with its location types filled in. */
  datatype Typed = Typed(ty: Option<TypeName>, expr: Expr)

  /** `check_binop` on possibly-None operand types: None is never a table key. */
  function BinopType(op: string, l: Option<TypeName>, r: Option<TypeName>): Option<TypeName> {
    if l.Some? && r.Some? then CheckBinop(op, l.value, r.value) else None
  }

  function UnaryType(op: string, t: Option<TypeName>): Option<TypeName> {
    if t.Some? then CheckUnaryop(op, t.value) else None
  }

  /** The result of `get(name)` is a true value. */
  predicate Resolves(chain: Chain, name: string) {
    Lookup(chain, name).Some? && EntryTruthy(Lookup(chain, name).value)
  }

  /** The type the checker gives an expression, or the error it raises. */
  function CheckExpr(chain: Chain, e: Expr): Result<Typed, CheckError>
    decreases e, 0
  {
    match e
    case Integer(_) => Ok(Typed(Some("int"), e))
    case Float(_) => Ok(Typed(Some("float"), e))
    case Bool(_) => Ok(Typed(Some("bool"), e))
    case Char(_) => Ok(Typed(Some("char"), e))
    case BinOp(op, l, r) =>
      var L :- CheckExpr(chain, l);
      var R :- CheckExpr(chain, r);
      var t := BinopType(op, L.ty, R.ty);
      if t.None? then Err(BadBinOp(op)) else Ok(Typed(t, BinOp(op, L.expr, R.expr)))
    case UnaryOp(op, x) =>
      var X :- CheckExpr(chain, x);
      var t := UnaryType(op, X.ty);
      if t.None? then Err(BadUnaryOp(op)) else Ok(Typed(t, UnaryOp(op, X.expr)))
    case TypeCast(t, x) =>
      var X :- CheckExpr(chain, x);
      Ok(Typed(Some(t), TypeCast(t, X.expr)))
    case FunctionCall(name, args) => CheckCall(chain, name, args)
    case NamedLocation(name, t) =>
      if !Resolves(chain, name) then Err(UndefinedVariable(name))
      else
        var st := TypeOfEntry(Lookup(chain, name).value);
        if st.None? then Err(NoTypeAttribute(name))
        else Ok(Typed(st.value, NamedLocation(name, if t.None? then st.value else t)))
  }

  /**
   * A call: the name must resolve to a function whose parameter count equals
   * the argument count, and the arguments must check against the parameters.
   * The call has the function's return type.
   */
  function CheckCall(chain: Chain, name: string, args: seq<Expr>): Result<Typed, CheckError>
    decreases args, 1
  {
    if !Resolves(chain, name) then Err(UndefinedFunction(name))
    else
      var f := Lookup(chain, name).value;
      if !f.FuncEntry? then Err(NotCallable(name))
      else if |args| != |f.parameters| then Err(ArityMismatch(name))
      else
        var checked :- CheckArgs(chain, name, args, f.parameters);
        Ok(Typed(f.returnType, FunctionCall(name, checked)))
  }

  /** Check arguments left to right against the parameters, stopping at the first failure. */
  function CheckArgs(chain: Chain, name: string, args: seq<Expr>, params: seq<Parameter>): (r: Result<seq<Expr>, CheckError>)
    requires |args| == |params|
    ensures r.Ok? ==> |r.value| == |args|
    decreases args, 0
  {
    if |args| == 0 then Ok([])
    else
      var A :- CheckExpr(chain, args[0]);
      if A.ty != Some(params[0].paramType) then Err(ArgTypeMismatch(name, params[0].name))
      else
        var rest :- CheckArgs(chain, name, args[1..], params[1..]);
        Ok([A.expr] + rest)
  }

  /**
   * What checking one statement did: the error it raised if any, the
   * innermost scope's bindings afterwards, the child scopes it created (in
   * creation order) and the annotated statement.
   */
  datatype StmtOutcome = StmtOutcome(error: Option<CheckError>, top: map<string, Entry>, children: seq<Scope>, stmt: Stmt)

  /** The same for a list of statements checked in one scope, stopping at the first failure. */
  datatype BlockOutcome = BlockOutcome(error: Option<CheckError>, top: map<string, Entry>, children: seq<Scope>, stmts: seq<Stmt>)

  /** The bindings of a new function scope after the parameters are added in order, and the error of the first duplicate. */
  datatype ParamsOutcome = ParamsOutcome(entries: map<string, Entry>, error: Option<CheckError>)

  function AddParams(entries: map<string, Entry>, params: seq<Parameter>): ParamsOutcome
    decreases |params|
  {
    if |params| == 0 then ParamsOutcome(entries, None)
    else if params[0].name in entries then ParamsOutcome(entries, Some(AddFailed(params[0].name)))
    else AddParams(entries[params[0].name := ParamEntry(params[0].paramType)], params[1..])
  }

  /**
   * The visit of a lone parameter: rejected if the name resolves anywhere
   * outward, else added to the innermost scope. (A function's own parameters
   * are added directly, by `AddParams`.)
   */
  function CheckParameter(chain: Chain, p: Parameter): ParamsOutcome
    requires |chain| > 0
  {
    var top := chain[0].entries;
    if Resolves(chain, p.name) then ParamsOutcome(top, Some(AlreadyDefined(p.name)))
    else if p.name in top then ParamsOutcome(top, Some(AddFailed(p.name)))
    else ParamsOutcome(top[p.name := ParamEntry(p.paramType)], None)
  }

  /** Some statement of the body itself (not a nested one) is a Return. */
  predicate HasTopLevelReturn(body: seq<Stmt>) {
    exists i :: 0 <= i < |body| && body[i].Return?
  }

  /** `func_type != expr_type` fails for the value bound to 'return_type' and the returned expression's type. */
  predicate ReturnTypeMatches(bound: Option<Entry>, ty: Option<TypeName>) {
    match bound
    case None => ty.None?
    case Some(ReturnTypeEntry(t)) => t == ty
    case Some(_) => false
  }

  function Halt(e: CheckError, top: map<string, Entry>, s: Stmt): StmtOutcome {
    StmtOutcome(Some(e), top, [], s)
  }

  /** `add(name, entry)` on the innermost scope as the last step of a declaration. */
  function Declare(top: map<string, Entry>, name: string, entry: Entry, s: Stmt): StmtOutcome {
    if name in top then Halt(AddFailed(name), top, s)
    else StmtOutcome(None, top[name := entry], [], s)
  }

  /** One statement, by kind. */
  function CheckStmt(chain: Chain, s: Stmt): StmtOutcome
    requires |chain| > 0
    decreases s, 2
  {
    match s
    case Assignment(_, _) => CheckAssignment(chain, s)
    case Print(x) => CheckPrinted(chain, x, s)
    case ExprStmt(x) => CheckPrinted(chain, x, s)
    case If(_, _, _) => CheckIf(chain, s)
    case While(_, _) => CheckWhile(chain, s)
    case Break => CheckInWhile(chain, s)
    case Continue => CheckInWhile(chain, s)
    case Return(_) => CheckReturn(chain, s)
    case Variable(_, _, _, _) => CheckVariable(chain, s)
    case Function(_, _, _, _) => CheckFunction(chain, s)
  }

  /** Assignment: the location's type must equal the expression's. */
  function CheckAssignment(chain: Chain, s: Stmt): StmtOutcome
    requires |chain| > 0 && s.Assignment?
  {
    var top := chain[0].entries;
    var L := CheckExpr(chain, s.loc);
    var E := CheckExpr(chain, s.expr);
    if L.Err? then Halt(L.error, top, s)
    else if E.Err? then Halt(E.error, top, s)
    else if L.value.ty != E.value.ty then Halt(CannotAssign, top, s)
    else StmtOutcome(None, top, [], Assignment(L.value.expr, E.value.expr))
  }

  /** Print, or an expression statement: only the expression is checked. */
  function CheckPrinted(chain: Chain, x: Expr, s: Stmt): StmtOutcome
    requires |chain| > 0 && (s == Print(x) || s == ExprStmt(x))
  {
    var top := chain[0].entries;
    var X := CheckExpr(chain, x);
    if X.Err? then Halt(X.error, top, s)
    else StmtOutcome(None, top, [], if s.Print? then Print(X.value.expr) else ExprStmt(X.value.expr))
  }

  /** If: a bool test; both branches are checked in the same scope, the else branch only when non-empty. */
  function CheckIf(chain: Chain, s: Stmt): StmtOutcome
    requires |chain| > 0 && s.If?
    decreases s, 1
  {
    var top := chain[0].entries;
    var T := CheckExpr(chain, s.test);
    if T.Err? then Halt(T.error, top, s)
    else if T.value.ty != Some("bool") then Halt(IfTestNotBool, top, s)
    else
      var c := CheckBlock(chain, s.consequence);
      if c.error.Some? then StmtOutcome(c.error, c.top, c.children, s)
      else if s.alternative.NoElse? || |s.alternative.stmts| == 0 then
        StmtOutcome(None, c.top, c.children, If(T.value.expr, c.stmts, s.alternative))
      else
        var a := CheckBlock(WithTop(chain, c.top), s.alternative.stmts);
        StmtOutcome(a.error, a.top, c.children + a.children,
                    if a.error.Some? then s else If(T.value.expr, c.stmts, Else(a.stmts)))
  }

  /**
   * While: a bool test; the body is checked with 'in_while' bound to the
   * loop marker in the innermost scope, which is added before and removed
   * after. A failing body leaves the marker bound.
   */
  function CheckWhile(chain: Chain, s: Stmt): StmtOutcome
    requires |chain| > 0 && s.While?
    decreases s, 1
  {
    var top := chain[0].entries;
    var T := CheckExpr(chain, s.test);
    if T.Err? then Halt(T.error, top, s)
    else if T.value.ty != Some("bool") then Halt(WhileTestNotBool, top, s)
    else if "in_while" in top then Halt(AddFailed("in_while"), top, s)
    else
      var b := CheckBlock(WithTop(chain, top["in_while" := LoopMarker]), s.body);
      if b.error.Some? then StmtOutcome(b.error, b.top, b.children, s)
      else if "in_while" !in b.top then StmtOutcome(Some(RemoveFailed("in_while")), b.top, b.children, s)
      else StmtOutcome(None, b.top - {"in_while"}, b.children, While(T.value.expr, b.stmts))
  }

  /** Break and Continue: 'in_while' must resolve to a true value. */
  function CheckInWhile(chain: Chain, s: Stmt): StmtOutcome
    requires |chain| > 0
  {
    if !Resolves(chain, "in_while") then Halt(NotInWhile, chain[0].entries, s)
    else StmtOutcome(None, chain[0].entries, [], s)
  }

  /** Return: a function scope must enclose it; a returned value's type must equal that scope's 'return_type'. */
  function CheckReturn(chain: Chain, s: Stmt): StmtOutcome
    requires |chain| > 0 && s.Return?
  {
    var top := chain[0].entries;
    var k := FirstOfType(chain, "function");
    if k.None? then Halt(ReturnOutsideFunction, top, s)
    else if s.value.None? then StmtOutcome(None, top, [], s)
    else
      var V := CheckExpr(chain, s.value.value);
      if V.Err? then Halt(V.error, top, s)
      else if !ReturnTypeMatches(Lookup(chain[k.value..], "return_type"), V.value.ty) then Halt(ReturnTypeMismatch, top, s)
      else StmtOutcome(None, top, [], Return(Some(V.value.expr)))
  }

  /** Variable: the name must not resolve anywhere outward; a declared type must equal the initializer's. */
  function CheckVariable(chain: Chain, s: Stmt): StmtOutcome
    requires |chain| > 0 && s.Variable?
  {
    var top := chain[0].entries;
    if Resolves(chain, s.name) then Halt(AlreadyDefined(s.name), top, s)
    else if s.init.None? then Declare(top, s.name, VarEntry(s.varType), s)
    else
      var V := CheckExpr(chain, s.init.value);
      if V.Err? then Halt(V.error, top, s)
      else if Truthy(s.varType) && s.varType != V.value.ty then Halt(VariableTypeMismatch(s.name), top, s)
      else Declare(top, s.name, VarEntry(s.varType), Variable(s.name, s.varType, Some(V.value.expr), s.isConst))
  }

  /**
   * Function: the name must not resolve anywhere outward. It is bound in the
   * innermost scope and gets a child scope of kind "function", checked by
   * `CheckFunctionScope` below the rebound chain.
   */
  function CheckFunction(chain: Chain, s: Stmt): StmtOutcome
    requires |chain| > 0 && s.Function?
    decreases s, 1
  {
    var top := chain[0].entries;
    if Resolves(chain, s.name) then Halt(AlreadyDefined(s.name), top, s)
    else if s.name in top then Halt(AddFailed(s.name), top, s)
    else
      var top1 := top[s.name := FuncEntry(s.parameters, s.returnType)];
      var f := CheckFunctionScope(WithTop(chain, top1), s);
      StmtOutcome(f.error, top1, [Scope("function", f.entries)], f.stmt)
  }

  /** What checking a function's own scope did: the error, the scope's final bindings, the annotated declaration. */
  datatype ScopeOutcome = ScopeOutcome(error: Option<CheckError>, entries: map<string, Entry>, stmt: Stmt)

  /**
   * A function's scope below the chain `outer`: 'return_type' and then the
   * parameters are bound, the body is checked there, and a truthy return
   * type needs a Return among the body's own statements.
   */
  function CheckFunctionScope(outer: Chain, s: Stmt): ScopeOutcome
    requires s.Function?
    decreases s, 0
  {
    var p := AddParams(map["return_type" := ReturnTypeEntry(s.returnType)], s.parameters);
    if p.error.Some? then ScopeOutcome(p.error, p.entries, s)
    else
      var b := CheckBlock([Scope("function", p.entries)] + outer, s.body);
      if b.error.Some? then ScopeOutcome(b.error, b.top, s)
      else if Truthy(s.returnType) && !HasTopLevelReturn(s.body) then ScopeOutcome(Some(MissingReturn(s.name)), b.top, s)
      else ScopeOutcome(None, b.top, Function(s.name, s.parameters, s.returnType, b.stmts))
  }

  /** Check statements in order in one scope; the first failure ends the list. */
  function CheckBlock(chain: Chain, stmts: seq<Stmt>): (r: BlockOutcome)
    requires |chain| > 0
    ensures r.error.None? ==> |r.stmts| == |stmts|
    decreases stmts, 3
  {
    if |stmts| == 0 then BlockOutcome(None, chain[0].entries, [], [])
    else
      var r := CheckStmt(chain, stmts[0]);
      if r.error.Some? then BlockOutcome(r.error, r.top, r.children, [])
      else
        var rest := CheckBlock(WithTop(chain, r.top), stmts[1..]);
        BlockOutcome(rest.error, rest.top, r.children + rest.children, [r.stmt] + rest.stmts)
  }

  /**
   * What `check` computes for a program: the errors of the failing top-level
   * statements in order, the global bindings and child scopes afterwards,
   * and the annotated statements (a failing one is kept as it was).
   */
  datatype ProgramOutcome = ProgramOutcome(errors: seq<CheckError>, globals: map<string, Entry>,
                                           children: seq<Scope>, stmts: seq<Stmt>)

  function GlobalChain(top: map<string, Entry>): Chain {
    [Scope("global", top)]
  }

  /** Every top-level statement is checked, each in the global scope as the earlier ones left it. */
  function CheckTopLevel(top: map<string, Entry>, stmts: seq<Stmt>): (r: ProgramOutcome)
    ensures |r.errors| <= |stmts| && |r.stmts| == |stmts|
    decreases |stmts|
  {
    if |stmts| == 0 then ProgramOutcome([], top, [], [])
    else
      var r := CheckStmt(GlobalChain(top), stmts[0]);
      var rest := CheckTopLevel(r.top, stmts[1..]);
      ProgramOutcome((if r.error.Some? then [r.error.value] else []) + rest.errors, rest.globals,
                     r.children + rest.children, [if r.error.Some? then stmts[0] else r.stmt] + rest.stmts)
  }

  function CheckProgram(p: Program): ProgramOutcome {
    CheckTopLevel(map[], p.stmts)
  }
}
