/**
 * The semantic checker (semantic/check.py) as it runs: a visitor over the
 * tree that reads and changes a live Symtab tree and collects one error per
 * failing top-level statement. Each visit is proved to do exactly what the
 * reference definition in module CheckSpec says, read off the value view of
 * the table chain it was given.
 */
module Checking {
  import opened Wrappers
  import opened Ast
  import opened Scopes
  import opened Symbols
  import opened CheckSpec

  /** `after` is `before` with more tables appended. */
  ghost predicate Grew(before: seq<Symtab>, after: seq<Symtab>) {
    |before| <= |after| && after[..|before|] == before
  }

  /** The checker reports a failed `add` or `remove` of the symbol table as its own error. */
  function SymError(e: SymtabError): CheckError {
    match e
    case SymbolDefined(n) => AddFailed(n)
    case SymbolNotFound(n) => RemoveFailed(n)
  }

  /** What a visit of one statement left behind agrees with the reference outcome. */
  ghost predicate StmtAgrees(o: StmtOutcome, err: Option<CheckError>, annotated: Stmt,
                             top: map<string, Entry>, added: seq<Scope>) {
    err == o.error && top == o.top && added == o.children && (err.None? ==> annotated == o.stmt)
  }

  /** The same for a list of statements. */
  ghost predicate BlockAgrees(o: BlockOutcome, err: Option<CheckError>, annotated: seq<Stmt>,
                              top: map<string, Entry>, added: seq<Scope>) {
    err == o.error && top == o.top && added == o.children && (err.None? ==> annotated == o.stmts)
  }

  /** The outcome of a whole block, split after the statements already done. */
  ghost predicate BlockSoFar(whole: BlockOutcome, added: seq<Scope>, done: seq<Stmt>, rest: BlockOutcome) {
    whole == BlockOutcome(rest.error, rest.top, added + rest.children, done + rest.stmts)
  }

  /** The outcome of a whole program, split after the statements already done. */
  ghost predicate ProgramSoFar(whole: ProgramOutcome, errors: seq<CheckError>, added: seq<Scope>,
                               done: seq<Stmt>, rest: ProgramOutcome) {
    whole == ProgramOutcome(errors + rest.errors, rest.globals, added + rest.children, done + rest.stmts)
  }

  /** A statement that succeeds moves the split of a block one statement on. */
  lemma BlockAdvance(whole: BlockOutcome, chain: Chain, stmts: seq<Stmt>, i: nat,
                     added: seq<Scope>, done: seq<Stmt>, r: StmtOutcome)
    requires |chain| > 0 && i < |stmts|
    requires BlockSoFar(whole, added, done, CheckBlock(chain, stmts[i..]))
    requires r == CheckStmt(chain, stmts[i]) && r.error.None?
    ensures BlockSoFar(whole, added + r.children, done + [r.stmt], CheckBlock(WithTop(chain, r.top), stmts[i + 1..]))
  {
    var tail := stmts[i..];
    assert tail[0] == stmts[i];
    assert tail[1..] == stmts[i + 1..];
    var rest := CheckBlock(WithTop(chain, r.top), stmts[i + 1..]);
    assert CheckBlock(chain, tail) == BlockOutcome(rest.error, rest.top, r.children + rest.children, [r.stmt] + rest.stmts);
    Associative(added, r.children, rest.children);
    Associative(done, [r.stmt], rest.stmts);
  }

  /** One more top-level statement moves the split of the program on, failing or not. */
  lemma ProgramAdvance(whole: ProgramOutcome, top: map<string, Entry>, stmts: seq<Stmt>, i: nat,
                       errors: seq<CheckError>, added: seq<Scope>, done: seq<Stmt>, r: StmtOutcome)
    requires i < |stmts|
    requires ProgramSoFar(whole, errors, added, done, CheckTopLevel(top, stmts[i..]))
    requires r == CheckStmt(GlobalChain(top), stmts[i])
    ensures ProgramSoFar(whole, errors + (if r.error.Some? then [r.error.value] else []), added + r.children,
                         done + [if r.error.Some? then stmts[i] else r.stmt], CheckTopLevel(r.top, stmts[i + 1..]))
  {
    var tail := stmts[i..];
    assert tail[0] == stmts[i];
    assert tail[1..] == stmts[i + 1..];
    var rest := CheckTopLevel(r.top, stmts[i + 1..]);
    Associative(errors, if r.error.Some? then [r.error.value] else [], rest.errors);
    Associative(added, r.children, rest.children);
    Associative(done, [if r.error.Some? then stmts[i] else r.stmt], rest.stmts);
  }

  /** A program whose statements are all done. */
  lemma ProgramDone(whole: ProgramOutcome, top: map<string, Entry>, stmts: seq<Stmt>,
                    errors: seq<CheckError>, added: seq<Scope>, done: seq<Stmt>)
    requires ProgramSoFar(whole, errors, added, done, CheckTopLevel(top, stmts[|stmts|..]))
    ensures whole == ProgramOutcome(errors, top, added, done)
  {
    assert stmts[|stmts|..] == [];
    assert errors + [] == errors && added + [] == added && done + [] == done;
  }

  lemma Associative<T>(a: seq<T>, b: seq<T>, c: seq<T>)
    ensures a + (b + c) == (a + b) + c
  {
  }

  /** A statement that fails ends the block with its error, bindings and children. */
  lemma BlockFail(whole: BlockOutcome, chain: Chain, stmts: seq<Stmt>, i: nat,
                  added: seq<Scope>, done: seq<Stmt>, r: StmtOutcome)
    requires |chain| > 0 && i < |stmts|
    requires BlockSoFar(whole, added, done, CheckBlock(chain, stmts[i..]))
    requires r == CheckStmt(chain, stmts[i]) && r.error.Some?
    ensures whole.error == r.error && whole.top == r.top && whole.children == added + r.children
  {
    assert stmts[i..][0] == stmts[i];
  }

  /** A block whose statements are all done. */
  lemma BlockDone(whole: BlockOutcome, chain: Chain, stmts: seq<Stmt>, added: seq<Scope>, done: seq<Stmt>)
    requires |chain| > 0
    requires BlockSoFar(whole, added, done, CheckBlock(chain, stmts[|stmts|..]))
    ensures whole == BlockOutcome(None, chain[0].entries, added, done)
  {
    assert stmts[|stmts|..] == [];
    assert added + [] == added && done + [] == done;
  }

  /** A block before any of its statements is done. */
  lemma BlockStart(chain: Chain, stmts: seq<Stmt>)
    requires |chain| > 0
    ensures BlockSoFar(CheckBlock(chain, stmts), [], [], CheckBlock(chain, stmts[0..]))
  {
    assert stmts[0..] == stmts;
    var o := CheckBlock(chain, stmts);
    assert [] + o.children == o.children && [] + o.stmts == o.stmts;
  }

  /** The outcome of checking all arguments, split after the arguments already checked. */
  ghost predicate ArgsSoFar(whole: Result<seq<Expr>, CheckError>, checked: seq<Expr>, rest: Result<seq<Expr>, CheckError>) {
    whole == (if rest.Ok? then Ok(checked + rest.value) else rest)
  }

  lemma ArgsStart(chain: Chain, name: string, args: seq<Expr>, params: seq<Parameter>)
    requires |args| == |params|
    ensures ArgsSoFar(CheckArgs(chain, name, args, params), [], CheckArgs(chain, name, args[0..], params[0..]))
  {
    assert args[0..] == args && params[0..] == params;
    var r := CheckArgs(chain, name, args, params);
    if r.Ok? {
      assert [] + r.value == r.value;
    }
  }

  /** Checking argument `i` either ends the arguments with its failure or moves the split on. */
  lemma ArgsStep(chain: Chain, name: string, args: seq<Expr>, params: seq<Parameter>, i: nat,
                 checked: seq<Expr>, whole: Result<seq<Expr>, CheckError>, a: Result<Typed, CheckError>)
    requires |args| == |params| && i < |args|
    requires ArgsSoFar(whole, checked, CheckArgs(chain, name, args[i..], params[i..]))
    requires a == CheckExpr(chain, args[i])
    ensures a.Err? ==> whole == Err(a.error)
    ensures a.Ok? && a.value.ty != Some(params[i].paramType) ==> whole == Err(ArgTypeMismatch(name, params[i].name))
    ensures a.Ok? && a.value.ty == Some(params[i].paramType) ==>
              ArgsSoFar(whole, checked + [a.value.expr], CheckArgs(chain, name, args[i + 1..], params[i + 1..]))
  {
    assert args[i..][0] == args[i] && args[i..][1..] == args[i + 1..];
    assert params[i..][0] == params[i] && params[i..][1..] == params[i + 1..];
    if a.Ok? && a.value.ty == Some(params[i].paramType) {
      var rest := CheckArgs(chain, name, args[i + 1..], params[i + 1..]);
      if rest.Ok? {
        Associative(checked, [a.value.expr], rest.value);
      }
    }
  }

  lemma ArgsDone(chain: Chain, name: string, args: seq<Expr>, params: seq<Parameter>,
                 checked: seq<Expr>, whole: Result<seq<Expr>, CheckError>)
    requires |args| == |params|
    requires ArgsSoFar(whole, checked, CheckArgs(chain, name, args[|args|..], params[|args|..]))
    ensures whole == Ok(checked)
  {
    assert args[|args|..] == [] && params[|args|..] == [];
    assert checked + [] == checked;
  }

  /** A prefix one statement longer has a top-level return iff the shorter one did or the added statement is one. */
  lemma ReturnPrefixStep(stmts: seq<Stmt>, j: nat)
    requires j < |stmts|
    ensures HasTopLevelReturn(stmts[..j + 1]) <==> HasTopLevelReturn(stmts[..j]) || stmts[j].Return?
  {
    var p, q := stmts[..j], stmts[..j + 1];
    if HasTopLevelReturn(q) {
      var k :| 0 <= k < |q| && q[k].Return?;
      if k < j {
        assert p[k] == q[k];
      }
    }
    if HasTopLevelReturn(p) {
      var k :| 0 <= k < |p| && p[k].Return?;
      assert q[k] == p[k];
    }
    if stmts[j].Return? {
      assert q[j] == stmts[j];
    }
  }

  /** Rebinding the innermost scope to what it binds changes nothing. */
  lemma WithTopSame(chain: Chain)
    requires |chain| > 0
    ensures WithTop(chain, chain[0].entries) == chain
  {
  }

  /** Rebinding the innermost scope twice leaves only the second rebinding. */
  lemma WithTopTwice(chain: Chain, a: map<string, Entry>, b: map<string, Entry>)
    requires |chain| > 0
    ensures WithTop(WithTop(chain, a), b) == WithTop(chain, b)
  {
  }

  class Checker {
    /** The errors collected so far, one per failing top-level statement. */
    var errors: seq<CheckError>

    constructor ()
      ensures errors == []
    {
      errors := [];
    }

    /**
     * The expression visits: the type of `e` (or the error raised) and `e`
     * with the types of its locations filled in.
     */
    method VisitExpr(e: Expr, env: Symtab) returns (r: Result<Typed, CheckError>)
      requires env.Linked()
      ensures r == CheckExpr(env.ChainView(), e)
      decreases e, 2
    {
      ghost var chain := env.ChainView();
      env.ChainAllocated();
      match e {
        case Integer(_) =>
          return Ok(Typed(Some("int"), e));
        case Float(_) =>
          return Ok(Typed(Some("float"), e));
        case Bool(_) =>
          return Ok(Typed(Some("bool"), e));
        case Char(_) =>
          return Ok(Typed(Some("char"), e));
        case BinOp(op, left, right) =>
          var L := VisitExpr(left, env);
          if L.Err? {
            return Err(L.error);
          }
          var R := VisitExpr(right, env);
          if R.Err? {
            return Err(R.error);
          }
          var t := BinopType(op, L.value.ty, R.value.ty);
          if t.None? {
            return Err(BadBinOp(op));
          }
          return Ok(Typed(t, BinOp(op, L.value.expr, R.value.expr)));
        case UnaryOp(op, operand) =>
          var X := VisitExpr(operand, env);
          if X.Err? {
            return Err(X.error);
          }
          var t := UnaryType(op, X.value.ty);
          if t.None? {
            return Err(BadUnaryOp(op));
          }
          return Ok(Typed(t, UnaryOp(op, X.value.expr)));
        case TypeCast(t, expression) =>
          var X := VisitExpr(expression, env);
          if X.Err? {
            return Err(X.error);
          }
          return Ok(Typed(Some(t), TypeCast(t, X.value.expr)));
        case FunctionCall(_, _) =>
          r := VisitCall(e, env);
        case NamedLocation(name, t) =>
          var symbol := env.Get(name);
          if symbol.None? || !EntryTruthy(symbol.value) {
            return Err(UndefinedVariable(name));
          }
          var st := TypeOfEntry(symbol.value);
          if st.None? {
            return Err(NoTypeAttribute(name));
          }
          return Ok(Typed(st.value, NamedLocation(name, if t.None? then st.value else t)));
      }
    }

    /**
     * FunctionCall: the name must resolve to a function with as many
     * parameters as there are arguments, and each argument's type, checked
     * left to right, must equal its parameter's type. The call has the
     * function's return type.
     */
    method VisitCall(e: Expr, env: Symtab) returns (r: Result<Typed, CheckError>)
      requires env.Linked() && e.FunctionCall?
      ensures r == CheckCall(env.ChainView(), e.name, e.arguments)
      decreases e, 1
    {
      env.ChainAllocated();
      ghost var chain := env.ChainView();
      var name, args := e.name, e.arguments;
      var f := env.Get(name);
      if f.None? || !EntryTruthy(f.value) {
        return Err(UndefinedFunction(name));
      }
      if !f.value.FuncEntry? {
        return Err(NotCallable(name));
      }
      var params := f.value.parameters;
      if |args| != |params| {
        return Err(ArityMismatch(name));
      }
      var checked := VisitArgs(e, name, args, params, env);
      if checked.Err? {
        return Err(checked.error);
      }
      return Ok(Typed(f.value.returnType, FunctionCall(name, checked.value)));
    }

    /** The arguments of a call, checked left to right against the parameters, stopping at the first failure. */
    method VisitArgs(ghost call: Expr, name: string, args: seq<Expr>, params: seq<Parameter>, env: Symtab)
      returns (r: Result<seq<Expr>, CheckError>)
      requires env.Linked() && call.FunctionCall? && args == call.arguments && |args| == |params|
      ensures r == CheckArgs(env.ChainView(), name, args, params)
      decreases call, 0
    {
      env.ChainAllocated();
      ghost var chain := env.ChainView();
      ghost var whole := CheckArgs(chain, name, args, params);
      var checked: seq<Expr> := [];
      ArgsStart(chain, name, args, params);
      var i := 0;
      while i < |args|
        invariant 0 <= i <= |args|
        invariant env.ChainView() == chain
        invariant ArgsSoFar(whole, checked, CheckArgs(chain, name, args[i..], params[i..]))
      {
        var A := VisitExpr(args[i], env);
        ArgsStep(chain, name, args, params, i, checked, whole, A);
        if A.Err? {
          return Err(A.error);
        }
        if A.value.ty != Some(params[i].paramType) {
          return Err(ArgTypeMismatch(name, params[i].name));
        }
        checked := checked + [A.value.expr];
        i := i + 1;
      }
      ArgsDone(chain, name, args, params, checked, whole);
      return Ok(checked);
    }

    /** Assignment: the location's type must equal the expression's. */
    method VisitAssignment(s: Stmt, env: Symtab) returns (err: Option<CheckError>, annotated: Stmt)
      requires env.Linked() && s.Assignment?
      ensures StmtAgrees(CheckAssignment(env.ChainView(), s), err, annotated, env.entries, [])
    {
      env.ChainAllocated();
      var L := VisitExpr(s.loc, env);
      if L.Err? {
        return Some(L.error), s;
      }
      var E := VisitExpr(s.expr, env);
      if E.Err? {
        return Some(E.error), s;
      }
      if L.value.ty != E.value.ty {
        return Some(CannotAssign), s;
      }
      return None, Assignment(L.value.expr, E.value.expr);
    }

    method VisitPrint(s: Stmt, env: Symtab) returns (err: Option<CheckError>, annotated: Stmt)
      requires env.Linked() && s.Print?
      ensures StmtAgrees(CheckPrinted(env.ChainView(), s.expression, s), err, annotated, env.entries, [])
    {
      env.ChainAllocated();
      var X := VisitExpr(s.expression, env);
      if X.Err? {
        return Some(X.error), s;
      }
      return None, Print(X.value.expr);
    }

    /** Break and Continue: 'in_while' must resolve to a true value. */
    method VisitBreakContinue(s: Stmt, env: Symtab) returns (err: Option<CheckError>, annotated: Stmt)
      requires env.Linked() && (s.Break? || s.Continue?)
      ensures StmtAgrees(CheckInWhile(env.ChainView(), s), err, annotated, env.entries, [])
    {
      env.ChainAllocated();
      var marker := env.Get("in_while");
      if marker.None? || !EntryTruthy(marker.value) {
        return Some(NotInWhile), s;
      }
      return None, s;
    }

    /** Return: a function scope must enclose it, and a returned value must have that scope's return type. */
    method VisitReturn(s: Stmt, env: Symtab) returns (err: Option<CheckError>, annotated: Stmt)
      requires env.Linked() && s.Return?
      ensures StmtAgrees(CheckReturn(env.ChainView(), s), err, annotated, env.entries, [])
    {
      env.ChainAllocated();
      ghost var chain := env.ChainView();
      var scope := env.FindScopeOfType("function");
      env.ScopeOfTypeIsNearest("function");
      if scope == null {
        return Some(ReturnOutsideFunction), s;
      }
      if s.value.None? {
        return None, s;
      }
      var V := VisitExpr(s.value.value, env);
      if V.Err? {
        return Some(V.error), s;
      }
      assert env.ChainView() == chain;
      var again := env.FindScopeOfType("function");
      env.ScopeOfTypeIsNearest("function");
      ghost var k := FirstOfType(chain, "function").value;
      assert again.ChainView() == chain[k..];
      var funcType := again.Get("return_type");
      if !ReturnTypeMatches(funcType, V.value.ty) {
        return Some(ReturnTypeMismatch), s;
      }
      return None, Return(Some(V.value.expr));
    }

    /** Variable: rejected if the name resolves anywhere outward or the initializer's type differs from a declared one. */
    method VisitVariable(s: Stmt, env: Symtab) returns (err: Option<CheckError>, annotated: Stmt)
      requires env.Linked() && s.Variable?
      modifies env
      ensures env.children == old(env.children)
      ensures StmtAgrees(CheckVariable(old(env.ChainView()), s), err, annotated, env.entries, [])
    {
      env.ChainAllocated();
      var prior := env.Get(s.name);
      if prior.Some? && EntryTruthy(prior.value) {
        return Some(AlreadyDefined(s.name)), s;
      }
      annotated := s;
      if s.init.Some? {
        var V := VisitExpr(s.init.value, env);
        if V.Err? {
          return Some(V.error), s;
        }
        if Truthy(s.varType) && s.varType != V.value.ty {
          return Some(VariableTypeMismatch(s.name)), s;
        }
        annotated := Variable(s.name, s.varType, Some(V.value.expr), s.isConst);
      }
      var e := env.Add(s.name, VarEntry(s.varType));
      if e.Some? {
        return Some(SymError(e.value)), s;
      }
      return None, annotated;
    }

    /** A lone parameter: rejected if the name resolves anywhere outward, else added to this table. */
    method VisitParameter(p: Parameter, env: Symtab) returns (err: Option<CheckError>)
      requires env.Linked()
      modifies env
      ensures env.children == old(env.children)
      ensures CheckParameter(old(env.ChainView()), p) == ParamsOutcome(env.entries, err)
    {
      env.ChainAllocated();
      var prior := env.Get(p.name);
      if prior.Some? && EntryTruthy(prior.value) {
        return Some(AlreadyDefined(p.name));
      }
      var e := env.Add(p.name, ParamEntry(p.paramType));
      if e.Some? {
        return Some(SymError(e.value));
      }
      return None;
    }

    /**
     * `check`: every top-level statement of the program is checked in a new
     * global table, a failing one adding its error and the rest going on;
     * the table is returned when no statement failed, and all the errors otherwise.
     */
    static method Check(p: Program) returns (r: Result<Symtab, seq<CheckError>>, annotated: seq<Stmt>)
      ensures var o := CheckProgram(p);
              (r.Err? <==> |o.errors| > 0) && (r.Err? ==> r.error == o.errors) &&
              (r.Ok? ==> fresh(r.value) && r.value.entries == o.globals && Views(r.value.children) == o.children) &&
              annotated == o.stmts
    {
      var check := new Checker();
      var env := new Symtab("global", null, "global");
      ghost var whole := CheckProgram(p);
      annotated := [];
      assert p.stmts[0..] == p.stmts;
      var i := 0;
      while i < |p.stmts|
        invariant 0 <= i <= |p.stmts|
        invariant env.Linked() && env.parent == null && env.scopeType == "global" && fresh(env)
        invariant forall j :: 0 <= j < |env.children| ==> env.children[j] != env
        invariant ProgramSoFar(whole, check.errors, Views(env.children), annotated,
                               CheckTopLevel(env.entries, p.stmts[i..]))
      {
        assert env.ChainView() == GlobalChain(env.entries);
        ProgramAdvance(whole, env.entries, p.stmts, i, check.errors, Views(env.children), annotated,
                       CheckStmt(GlobalChain(env.entries), p.stmts[i]));
        var a := check.SafeAccept(p.stmts[i], env);
        annotated := annotated + [a];
        i := i + 1;
      }
      ProgramDone(whole, env.entries, p.stmts, check.errors, Views(env.children), annotated);
      if |check.errors| > 0 {
        return Err(check.errors), annotated;
      }
      return Ok(env), annotated;
    }

    /** `_safe_accept`: check one statement; if it fails, record its error and carry on. */
    method SafeAccept(s: Stmt, env: Symtab) returns (annotated: Stmt)
      requires env.Linked() && forall j :: 0 <= j < |env.children| ==> env.children[j] != env
      modifies this, env
      ensures forall j :: 0 <= j < |env.children| ==> env.children[j] != env
      ensures var o := CheckStmt(old(env.ChainView()), s);
              errors == old(errors) + (if o.error.Some? then [o.error.value] else []) &&
              env.entries == o.top && Views(env.children) == old(Views(env.children)) + o.children &&
              annotated == (if o.error.Some? then s else o.stmt)
    {
      ghost var before := env.children;
      ghost var beforeViews := Views(before);
      var err;
      err, annotated := VisitStmt(s, env);
      assert Views(before) == beforeViews;
      assert env.children == before + env.children[|before|..];
      ViewsAppend(before, env.children[|before|..]);
      if err.Some? {
        errors := errors + [err.value];
        annotated := s;
      }
    }

    /** `visit(Program)`: the statements in order in one table, stopping at the first that fails. */
    method VisitProgram(p: Program, env: Symtab) returns (err: Option<CheckError>, annotated: seq<Stmt>)
      requires env.Linked()
      modifies env
      ensures Grew(old(env.children), env.children)
      ensures BlockAgrees(CheckBlock(old(env.ChainView()), p.stmts), err, annotated, env.entries,
                         Views(env.children[|old(env.children)|..]))
    {
      err, annotated := VisitBlock(p.stmts, env);
    }

    /**
     * One statement, dispatched on its kind. The innermost table ends with the
     * bindings the reference definition gives, the tables created are appended
     * to its children, and the outer tables are untouched.
     */
    method VisitStmt(s: Stmt, env: Symtab) returns (err: Option<CheckError>, annotated: Stmt)
      requires env.Linked()
      modifies env
      ensures Grew(old(env.children), env.children)
      ensures forall j :: |old(env.children)| <= j < |env.children| ==> fresh(env.children[j])
      ensures StmtAgrees(CheckStmt(old(env.ChainView()), s), err, annotated, env.entries,
                         Views(env.children[|old(env.children)|..]))
      decreases s, 3
    {
      env.ChainAllocated();
      match s {
        case If(_, _, _) =>
          err, annotated := VisitIf(s, env);
        case While(_, _) =>
          err, annotated := VisitWhile(s, env);
        case Variable(_, _, _, _) =>
          err, annotated := VisitVariable(s, env);
        case Function(_, _, _, _) =>
          err, annotated := VisitFunction(s, env);
        case _ =>
          WithTopSame(env.ChainView());
          assert env.children[|env.children|..] == [];
          err, annotated := VisitSimple(s, env);
      }
    }

    /** The statements that only read the tables. */
    method VisitSimple(s: Stmt, env: Symtab) returns (err: Option<CheckError>, annotated: Stmt)
      requires env.Linked() && !s.If? && !s.While? && !s.Variable? && !s.Function?
      ensures StmtAgrees(CheckStmt(env.ChainView(), s), err, annotated, env.entries, [])
    {
      env.ChainAllocated();
      match s {
        case Assignment(_, _) =>
          err, annotated := VisitAssignment(s, env);
        case Print(_) =>
          err, annotated := VisitPrint(s, env);
        case ExprStmt(x) =>
          var X := VisitExpr(x, env);
          err, annotated := if X.Err? then Some(X.error) else None, if X.Err? then s else ExprStmt(X.value.expr);
        case Break =>
          err, annotated := VisitBreakContinue(s, env);
        case Continue =>
          err, annotated := VisitBreakContinue(s, env);
        case Return(_) =>
          err, annotated := VisitReturn(s, env);
      }
    }

    /** Statements in order in one table; the first failure ends the visit. */
    method VisitBlock(stmts: seq<Stmt>, env: Symtab) returns (err: Option<CheckError>, annotated: seq<Stmt>)
      requires env.Linked()
      modifies env
      ensures Grew(old(env.children), env.children)
      ensures forall j :: |old(env.children)| <= j < |env.children| ==> fresh(env.children[j])
      ensures env.ChainView() == WithTop(old(env.ChainView()), env.entries)
      ensures BlockAgrees(CheckBlock(old(env.ChainView()), stmts), err, annotated, env.entries,
                          Views(env.children[|old(env.children)|..]))
      decreases stmts, 3
    {
      env.ChainAllocated();
      ghost var chain0 := env.ChainView();
      ghost var whole := CheckBlock(chain0, stmts);
      ghost var n0 := |env.children|;
      annotated := [];
      var i := 0;
      BlockStart(chain0, stmts);
      assert env.children[n0..] == [];
      while i < |stmts|
        invariant 0 <= i <= |stmts|
        invariant Grew(old(env.children), env.children)
        invariant forall j :: n0 <= j < |env.children| ==> fresh(env.children[j])
        invariant env.ChainView() == WithTop(chain0, env.entries)
        invariant BlockSoFar(whole, Views(env.children[n0..]), annotated, CheckBlock(env.ChainView(), stmts[i..]))
      {
        err, annotated := VisitNext(stmts, i, env, chain0, whole, n0, annotated);
        if err.Some? {
          return;
        }
        i := i + 1;
      }
      BlockDone(whole, env.ChainView(), stmts, Views(env.children[n0..]), annotated);
      return None, annotated;
    }

    /**
     * The body of the statement loops of a block and of a function: visit
     * statement `i` and move the split of the block's outcome one statement on.
     */
    method VisitNext(stmts: seq<Stmt>, i: nat, env: Symtab, ghost chain0: Chain, ghost whole: BlockOutcome,
                     ghost n0: nat, done: seq<Stmt>) returns (err: Option<CheckError>, annotated: seq<Stmt>)
      requires env.Linked() && i < |stmts| && |chain0| > 0 && n0 <= |env.children|
      requires forall j :: n0 <= j < |env.children| ==> env.children[j] != env
      requires env.ChainView() == WithTop(chain0, env.entries)
      requires BlockSoFar(whole, Views(env.children[n0..]), done, CheckBlock(env.ChainView(), stmts[i..]))
      modifies env
      ensures Grew(old(env.children), env.children)
      ensures forall j :: |old(env.children)| <= j < |env.children| ==> fresh(env.children[j])
      ensures env.ChainView() == WithTop(chain0, env.entries)
      ensures err.None? ==> BlockSoFar(whole, Views(env.children[n0..]), annotated, CheckBlock(env.ChainView(), stmts[i + 1..]))
      ensures err.Some? ==> err == whole.error && env.entries == whole.top && Views(env.children[n0..]) == whole.children
      decreases stmts, 2
    {
      env.ChainAllocated();
      if env.parent != null {
        env.NotAnAncestor();
      }
      ghost var cur := env.ChainView();
      ghost var n1 := |env.children|;
      ghost var before := env.children[n0..];
      ghost var beforeViews := Views(before);
      ghost var r := CheckStmt(cur, stmts[i]);
      var e, a := VisitStmt(stmts[i], env);
      assert Views(before) == beforeViews;
      assert env.children[n0..] == before + env.children[n1..];
      ViewsAppend(before, env.children[n1..]);
      WithTopTwice(chain0, cur[0].entries, env.entries);
      if e.Some? {
        BlockFail(whole, cur, stmts, i, beforeViews, done, r);
        return e, done;
      }
      BlockAdvance(whole, cur, stmts, i, beforeViews, done, r);
      return None, done + [a];
    }

    /** If: the test must be bool; both branches are checked in this same table. */
    method VisitIf(s: Stmt, env: Symtab) returns (err: Option<CheckError>, annotated: Stmt)
      requires env.Linked() && s.If?
      modifies env
      ensures Grew(old(env.children), env.children)
      ensures forall j :: |old(env.children)| <= j < |env.children| ==> fresh(env.children[j])
      ensures StmtAgrees(CheckIf(old(env.ChainView()), s), err, annotated, env.entries,
                         Views(env.children[|old(env.children)|..]))
      decreases s, 1
    {
      env.ChainAllocated();
      ghost var n0 := |env.children|;
      assert env.children[n0..] == [];
      var T := VisitExpr(s.test, env);
      if T.Err? {
        return Some(T.error), s;
      }
      if T.value.ty != Some("bool") {
        return Some(IfTestNotBool), s;
      }
      var ce, cs := VisitBlock(s.consequence, env);
      if ce.Some? {
        return ce, s;
      }
      if s.alternative.NoElse? || |s.alternative.stmts| == 0 {
        return None, If(T.value.expr, cs, s.alternative);
      }
      ghost var n1 := |env.children|;
      ghost var first := env.children[n0..];
      ghost var firstViews := Views(first);
      var ae, alts := VisitBlock(s.alternative.stmts, env);
      assert env.children[n0..] == first + env.children[n1..];
      ViewsAppend(first, env.children[n1..]);
      if ae.Some? {
        return ae, s;
      }
      return None, If(T.value.expr, cs, Else(alts));
    }

    /**
     * While: the test must be bool; 'in_while' is added to this table before
     * the body and removed after it. A failing body leaves the marker behind,
     * and a while nested in the same table fails at the `add`.
     */
    method VisitWhile(s: Stmt, env: Symtab) returns (err: Option<CheckError>, annotated: Stmt)
      requires env.Linked() && s.While?
      modifies env
      ensures Grew(old(env.children), env.children)
      ensures forall j :: |old(env.children)| <= j < |env.children| ==> fresh(env.children[j])
      ensures StmtAgrees(CheckWhile(old(env.ChainView()), s), err, annotated, env.entries,
                         Views(env.children[|old(env.children)|..]))
      decreases s, 1
    {
      env.ChainAllocated();
      if env.parent != null {
        env.NotAnAncestor();
      }
      ghost var chain0 := env.ChainView();
      ghost var n0 := |env.children|;
      assert env.children[n0..] == [];
      var T := VisitExpr(s.test, env);
      if T.Err? {
        return Some(T.error), s;
      }
      if T.value.ty != Some("bool") {
        return Some(WhileTestNotBool), s;
      }
      var added := env.Add("in_while", LoopMarker);
      if added.Some? {
        return Some(SymError(added.value)), s;
      }
      assert env.ChainView() == WithTop(chain0, env.entries);
      var be, bs := VisitBlock(s.body, env);
      if be.Some? {
        return be, s;
      }
      var removed := env.Remove("in_while");
      if removed.Some? {
        return Some(SymError(removed.value)), s;
      }
      return None, While(T.value.expr, bs);
    }

    /**
     * Function: rejected if the name resolves anywhere outward; otherwise
     * bound here, given a new child table of kind "function" holding
     * 'return_type' and the parameters, and its body checked in that table.
     * A declared return type needs a Return among the body's own statements.
     */
    method VisitFunction(s: Stmt, env: Symtab) returns (err: Option<CheckError>, annotated: Stmt)
      requires env.Linked() && s.Function?
      modifies env
      ensures Grew(old(env.children), env.children)
      ensures forall j :: |old(env.children)| <= j < |env.children| ==> fresh(env.children[j])
      ensures StmtAgrees(CheckFunction(old(env.ChainView()), s), err, annotated, env.entries,
                         Views(env.children[|old(env.children)|..]))
      decreases s, 2
    {
      env.ChainAllocated();
      if env.parent != null {
        env.NotAnAncestor();
      }
      ghost var chain0 := env.ChainView();
      ghost var n0 := |env.children|;
      assert env.children[n0..] == [];
      var prior := env.Get(s.name);
      if prior.Some? && EntryTruthy(prior.value) {
        return Some(AlreadyDefined(s.name)), s;
      }
      var added := env.Add(s.name, FuncEntry(s.parameters, s.returnType));
      if added.Some? {
        return Some(SymError(added.value)), s;
      }
      assert env.ChainView() == WithTop(chain0, env.entries);
      err, annotated := OpenFunction(s, env);
    }

    /** After the name is bound: the function's own table, a new child of `env`. */
    method OpenFunction(s: Stmt, env: Symtab) returns (err: Option<CheckError>, annotated: Stmt)
      requires env.Linked() && s.Function?
      modifies env
      ensures Grew(old(env.children), env.children)
      ensures forall j :: |old(env.children)| <= j < |env.children| ==> fresh(env.children[j])
      ensures env.entries == old(env.entries)
      ensures var f := CheckFunctionScope(old(env.ChainView()), s);
              err == f.error && Views(env.children[|old(env.children)|..]) == [Scope("function", f.entries)] &&
              (err.None? ==> annotated == f.stmt)
      decreases s, 1
    {
      env.ChainAllocated();
      ghost var n0 := |env.children|;
      var funcEnv := new Symtab(s.name, env, "function");
      assert env.children[n0..] == [funcEnv];
      err, annotated := VisitFunctionScope(s, funcEnv);
      assert Views(env.children[n0..]) == [Scope("function", funcEnv.entries)];
    }

    /**
     * The new table of a function: 'return_type' and the parameters are
     * added, and the body is checked there statement by statement, noting
     * whether one of those statements (not a nested one) is a Return.
     */
    method VisitFunctionScope(s: Stmt, funcEnv: Symtab) returns (err: Option<CheckError>, annotated: Stmt)
      requires s.Function? && funcEnv.Linked() && funcEnv.parent != null && funcEnv.scopeType == "function"
      requires funcEnv.entries == map[] && funcEnv.children == []
      modifies funcEnv
      ensures var f := CheckFunctionScope(funcEnv.parent.ChainView(), s);
              err == f.error && funcEnv.entries == f.entries && (err.None? ==> annotated == f.stmt)
      decreases s, 0
    {
      funcEnv.ChainAllocated();
      funcEnv.NotAnAncestor();
      var ret := funcEnv.Add("return_type", ReturnTypeEntry(s.returnType));
      var bound := BindParameters(funcEnv, s.parameters);
      if bound.Some? {
        return bound, s;
      }
      assert funcEnv.ChainView() == [Scope("function", funcEnv.entries)] + funcEnv.parent.ChainView();
      var failed, body, hasReturn := VisitBody(s.body, funcEnv);
      if failed.Some? {
        return failed, s;
      }
      if Truthy(s.returnType) && !hasReturn {
        return Some(MissingReturn(s.name)), s;
      }
      return None, Function(s.name, s.parameters, s.returnType, body);
    }

    /** The parameters of a function, added in order to its new table; a repeated name fails at `add`. */
    method BindParameters(funcEnv: Symtab, params: seq<Parameter>) returns (err: Option<CheckError>)
      modifies funcEnv
      ensures funcEnv.children == old(funcEnv.children)
      ensures AddParams(old(funcEnv.entries), params) == ParamsOutcome(funcEnv.entries, err)
    {
      assert params[0..] == params;
      var i := 0;
      while i < |params|
        invariant 0 <= i <= |params|
        invariant funcEnv.children == old(funcEnv.children)
        invariant AddParams(old(funcEnv.entries), params) == AddParams(funcEnv.entries, params[i..])
      {
        assert params[i..][0] == params[i] && params[i..][1..] == params[i + 1..];
        var e := funcEnv.Add(params[i].name, ParamEntry(params[i].paramType));
        if e.Some? {
          return Some(SymError(e.value));
        }
        i := i + 1;
      }
      return None;
    }

    /**
     * A function's body, statement by statement in the function's table,
     * noting whether one of those statements (not a nested one) is a Return.
     */
    method VisitBody(stmts: seq<Stmt>, funcEnv: Symtab) returns (err: Option<CheckError>, annotated: seq<Stmt>, hasReturn: bool)
      requires funcEnv.Linked() && funcEnv.children == []
      modifies funcEnv
      ensures forall k :: 0 <= k < |funcEnv.children| ==> fresh(funcEnv.children[k])
      ensures BlockAgrees(CheckBlock(old(funcEnv.ChainView()), stmts), err, annotated, funcEnv.entries, Views(funcEnv.children))
      ensures err.None? ==> (hasReturn <==> HasTopLevelReturn(stmts))
      decreases stmts, 3
    {
      funcEnv.ChainAllocated();
      ghost var chainF := funcEnv.ChainView();
      ghost var whole := CheckBlock(chainF, stmts);
      hasReturn := false;
      annotated := [];
      var j := 0;
      BlockStart(chainF, stmts);
      assert funcEnv.children[0..] == [];
      while j < |stmts|
        invariant 0 <= j <= |stmts|
        invariant Grew([], funcEnv.children)
        invariant forall k :: 0 <= k < |funcEnv.children| ==> fresh(funcEnv.children[k])
        invariant funcEnv.ChainView() == WithTop(chainF, funcEnv.entries)
        invariant BlockSoFar(whole, Views(funcEnv.children[0..]), annotated, CheckBlock(funcEnv.ChainView(), stmts[j..]))
        invariant hasReturn == HasTopLevelReturn(stmts[..j])
      {
        err, annotated := VisitNext(stmts, j, funcEnv, chainF, whole, 0, annotated);
        if err.Some? {
          assert funcEnv.children[0..] == funcEnv.children;
          return;
        }
        ReturnPrefixStep(stmts, j);
        if stmts[j].Return? {
          hasReturn := true;
        }
        j := j + 1;
      }
      assert stmts[..j] == stmts;
      BlockDone(whole, funcEnv.ChainView(), stmts, Views(funcEnv.children[0..]), annotated);
      assert funcEnv.children[0..] == funcEnv.children;
      return None, annotated, hasReturn;
    }
  }
}
