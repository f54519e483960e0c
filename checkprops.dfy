/**
 * What the semantic checker (semantic/check.py) guarantees, proved about its
 * reference definition in module CheckSpec: bindings only grow, the loop
 * marker's life cycle, the rules for calls, declarations and returns.
 */
module CheckProps {
  import opened Wrappers
  import opened Ast
  import opened Scopes
  import opened CheckSpec

  /** `after` keeps every binding of `before`, unchanged. */
  ghost predicate Extends(after: map<string, Entry>, before: map<string, Entry>) {
    forall k :: k in before ==> k in after && after[k] == before[k]
  }

  // ------------------------------------------------------------ bindings only grow

  /**
   * No statement changes or removes a binding of the table it is checked
   * in: `add` refuses a name already there, and the only `remove` takes out
   * the 'in_while' marker its own While added.
   */
  lemma {:induction false} StmtKeepsBindings(chain: Chain, s: Stmt)
    requires |chain| > 0
    ensures Extends(CheckStmt(chain, s).top, chain[0].entries)
    decreases s, 2
  {
    match s {
      case If(_, _, _) => IfKeepsBindings(chain, s);
      case While(_, _) => WhileKeepsBindings(chain, s);
      case Variable(_, _, _, _) => VariableKeepsBindings(chain, s);
      case Function(_, _, _, _) => FunctionKeepsBindings(chain, s);
      case _ =>
    }
  }

  lemma VariableKeepsBindings(chain: Chain, s: Stmt)
    requires |chain| > 0 && s.Variable?
    ensures Extends(CheckVariable(chain, s).top, chain[0].entries)
  {
  }

  lemma FunctionKeepsBindings(chain: Chain, s: Stmt)
    requires |chain| > 0 && s.Function?
    ensures Extends(CheckFunction(chain, s).top, chain[0].entries)
  {
  }

  lemma {:induction false} IfKeepsBindings(chain: Chain, s: Stmt)
    requires |chain| > 0 && s.If?
    ensures Extends(CheckIf(chain, s).top, chain[0].entries)
    decreases s, 1
  {
    var T := CheckExpr(chain, s.test);
    if T.Ok? && T.value.ty == Some("bool") {
      BlockKeepsBindings(chain, s.consequence);
      var c := CheckBlock(chain, s.consequence);
      if c.error.None? && s.alternative.Else? && |s.alternative.stmts| > 0 {
        BlockKeepsBindings(WithTop(chain, c.top), s.alternative.stmts);
      }
    }
  }

  lemma {:induction false} WhileKeepsBindings(chain: Chain, s: Stmt)
    requires |chain| > 0 && s.While?
    ensures Extends(CheckWhile(chain, s).top, chain[0].entries)
    decreases s, 1
  {
    var top := chain[0].entries;
    var T := CheckExpr(chain, s.test);
    if T.Ok? && T.value.ty == Some("bool") && "in_while" !in top {
      BlockKeepsBindings(WithTop(chain, top["in_while" := LoopMarker]), s.body);
    }
  }

  /** The same for a list of statements in one table. */
  lemma {:induction false} BlockKeepsBindings(chain: Chain, stmts: seq<Stmt>)
    requires |chain| > 0
    ensures Extends(CheckBlock(chain, stmts).top, chain[0].entries)
    decreases stmts, 3
  {
    if |stmts| > 0 {
      StmtKeepsBindings(chain, stmts[0]);
      var r := CheckStmt(chain, stmts[0]);
      if r.error.None? {
        BlockKeepsBindings(WithTop(chain, r.top), stmts[1..]);
      }
    }
  }

  // ------------------------------------------------------------ the loop marker

  /**
   * A While whose test is bool and whose table has no marker yet: when the
   * body passes, the While passes and the marker is gone again; when the
   * body fails, the While fails with the body's error and the marker stays.
   */
  lemma WhileMarkerLifeCycle(chain: Chain, s: Stmt)
    requires |chain| > 0 && s.While?
    requires CheckExpr(chain, s.test).Ok? && CheckExpr(chain, s.test).value.ty == Some("bool")
    requires "in_while" !in chain[0].entries
    ensures var inner := WithTop(chain, chain[0].entries["in_while" := LoopMarker]);
            var b := CheckBlock(inner, s.body);
            var r := CheckStmt(chain, s);
            (b.error.None? ==> r.error.None? && "in_while" !in r.top) &&
            (b.error.Some? ==> r.error == b.error && "in_while" in r.top && r.top["in_while"] == LoopMarker)
  {
    var inner := WithTop(chain, chain[0].entries["in_while" := LoopMarker]);
    BlockKeepsBindings(inner, s.body);
  }

  /** In a table that already holds the marker, a While fails (its test, or the `add` of 'in_while'). */
  lemma WhileInMarkedTableFails(chain: Chain, s: Stmt)
    requires |chain| > 0 && s.While? && "in_while" in chain[0].entries
    ensures CheckStmt(chain, s).error.Some?
  {
  }

  /** A block in a marked table fails when one of its statements is a While. */
  lemma {:induction false} BlockWithWhileFails(chain: Chain, stmts: seq<Stmt>, i: nat)
    requires |chain| > 0 && "in_while" in chain[0].entries
    requires i < |stmts| && stmts[i].While?
    ensures CheckBlock(chain, stmts).error.Some?
    decreases i
  {
    var r := CheckStmt(chain, stmts[0]);
    if i == 0 {
      WhileInMarkedTableFails(chain, stmts[0]);
    } else if r.error.None? {
      StmtKeepsBindings(chain, stmts[0]);
      assert stmts[1..][i - 1] == stmts[i];
      BlockWithWhileFails(WithTop(chain, r.top), stmts[1..], i - 1);
    }
  }

  /**
   * A While directly inside a While's body (the same table) always fails,
   * and so does the outer While: the inner `add('in_while')` finds the
   * outer marker.
   */
  lemma NestedWhileFails(chain: Chain, s: Stmt, i: nat)
    requires |chain| > 0 && s.While?
    requires i < |s.body| && s.body[i].While?
    ensures CheckStmt(chain, s).error.Some?
  {
    var top := chain[0].entries;
    var T := CheckExpr(chain, s.test);
    if T.Ok? && T.value.ty == Some("bool") && "in_while" !in top {
      BlockWithWhileFails(WithTop(chain, top["in_while" := LoopMarker]), s.body, i);
    }
  }

  /** Break and Continue pass exactly when 'in_while' resolves to a true value. */
  lemma BreakNeedsMarker(chain: Chain, s: Stmt)
    requires |chain| > 0 && (s.Break? || s.Continue?)
    ensures CheckStmt(chain, s).error.None? <==> Resolves(chain, "in_while")
    ensures CheckStmt(chain, s).error.Some? ==> CheckStmt(chain, s).error == Some(NotInWhile)
  {
  }

  // ------------------------------------------------------------ statements

  /** An assignment passes exactly when both sides check and their types are equal. */
  lemma AssignmentRule(chain: Chain, s: Stmt)
    requires |chain| > 0 && s.Assignment?
    ensures var L := CheckExpr(chain, s.loc);
            var E := CheckExpr(chain, s.expr);
            CheckStmt(chain, s).error.None? <==> L.Ok? && E.Ok? && L.value.ty == E.value.ty
  {
  }

  /** An If or a While passes only when its test checks as 'bool'. */
  lemma TestMustBeBool(chain: Chain, s: Stmt)
    requires |chain| > 0 && (s.If? || s.While?)
    requires CheckStmt(chain, s).error.None?
    ensures CheckExpr(chain, s.test).Ok? && CheckExpr(chain, s.test).value.ty == Some("bool")
  {
  }

  /** A Return where no scope of kind "function" encloses it fails. */
  lemma ReturnNeedsFunction(chain: Chain, s: Stmt)
    requires |chain| > 0 && s.Return?
    requires forall j :: 0 <= j < |chain| ==> chain[j].scopeType != "function"
    ensures CheckStmt(chain, s).error == Some(ReturnOutsideFunction)
  {
  }

  /**
   * Inside a function scope, a Return with a value passes exactly when the
   * value checks and its type matches the 'return_type' bound in the
   * nearest function scope; a type mismatch is reported as such.
   */
  lemma ReturnTypeRule(chain: Chain, s: Stmt)
    requires |chain| > 0 && s.Return? && s.value.Some? && FirstOfType(chain, "function").Some?
    ensures var k := FirstOfType(chain, "function").value;
            var V := CheckExpr(chain, s.value.value);
            && (CheckStmt(chain, s).error.None? <==>
                  V.Ok? && ReturnTypeMatches(Lookup(chain[k..], "return_type"), V.value.ty))
            && (V.Err? ==> CheckStmt(chain, s).error == Some(V.error))
            && (V.Ok? && !ReturnTypeMatches(Lookup(chain[k..], "return_type"), V.value.ty) ==>
                  CheckStmt(chain, s).error == Some(ReturnTypeMismatch))
  {
  }

  /** Inside a function scope, a Return without a value always passes. */
  lemma BareReturnPasses(chain: Chain, s: Stmt)
    requires |chain| > 0 && s.Return? && s.value.None? && FirstOfType(chain, "function").Some?
    ensures CheckStmt(chain, s).error.None? && CheckStmt(chain, s).top == chain[0].entries
  {
  }

  /** At the top level of a program every Return fails. */
  lemma TopLevelReturnFails(top: map<string, Entry>, v: Option<Expr>)
    ensures CheckStmt(GlobalChain(top), Return(v)).error == Some(ReturnOutsideFunction)
  {
    ReturnNeedsFunction(GlobalChain(top), Return(v));
  }

  /**
   * A Variable passes only when its name is bound nowhere on the chain
   * with a true value and not at all in its own table; it then binds the
   * name in its own table and nothing else changes.
   */
  lemma VariableRule(chain: Chain, s: Stmt)
    requires |chain| > 0 && s.Variable?
    ensures var r := CheckStmt(chain, s);
            && (r.error.None? <==>
                  && !Resolves(chain, s.name) && s.name !in chain[0].entries
                  && (s.init.Some? ==> CheckExpr(chain, s.init.value).Ok? &&
                                       (Truthy(s.varType) ==> s.varType == CheckExpr(chain, s.init.value).value.ty)))
            && (r.error.None? ==> r.top == chain[0].entries[s.name := VarEntry(s.varType)])
            && (Resolves(chain, s.name) ==> r.error == Some(AlreadyDefined(s.name)))
    ensures var r := CheckStmt(chain, s);
            !Resolves(chain, s.name) && s.init.Some? ==>
              var V := CheckExpr(chain, s.init.value);
              && (V.Err? ==> r.error == Some(V.error))
              && (V.Ok? && Truthy(s.varType) && s.varType != V.value.ty ==> r.error == Some(VariableTypeMismatch(s.name)))
  {
  }

  /** A name declared in an outer scope cannot be declared again in an inner one. */
  lemma {:induction false} ShadowingRejected(inner: map<string, Entry>, kind: string, outer: Chain, s: Stmt)
    requires s.Variable? || s.Function?
    requires s.name !in inner && Resolves(outer, s.name)
    ensures CheckStmt([Scope(kind, inner)] + outer, s).error == Some(AlreadyDefined(s.name))
  {
    var chain := [Scope(kind, inner)] + outer;
    assert chain[1..] == outer;
    assert Lookup(chain, s.name) == Lookup(outer, s.name);
  }

  // ------------------------------------------------------------ calls

  /** The arguments check exactly when each one checks and has its parameter's type. */
  lemma {:induction false} ArgsRule(chain: Chain, name: string, args: seq<Expr>, params: seq<Parameter>)
    requires |args| == |params|
    ensures CheckArgs(chain, name, args, params).Ok? <==>
            forall i :: 0 <= i < |args| ==> CheckExpr(chain, args[i]).Ok? && CheckExpr(chain, args[i]).value.ty == Some(params[i].paramType)
    decreases |args|
  {
    if |args| > 0 {
      ArgsRule(chain, name, args[1..], params[1..]);
      var A := CheckExpr(chain, args[0]);
      if A.Ok? && A.value.ty == Some(params[0].paramType) {
        forall i | 1 <= i < |args|
          ensures args[1..][i - 1] == args[i] && params[1..][i - 1] == params[i]
        {
        }
        if forall i :: 0 <= i < |args| - 1 ==> CheckExpr(chain, args[1..][i]).Ok? && CheckExpr(chain, args[1..][i]).value.ty == Some(params[1..][i].paramType) {
          assert forall i :: 0 <= i < |args| ==> CheckExpr(chain, args[i]).Ok? && CheckExpr(chain, args[i]).value.ty == Some(params[i].paramType) by {
            forall i | 0 <= i < |args|
              ensures CheckExpr(chain, args[i]).Ok? && CheckExpr(chain, args[i]).value.ty == Some(params[i].paramType)
            {
              if i > 0 {
                assert args[1..][i - 1] == args[i] && params[1..][i - 1] == params[i];
              }
            }
          }
        } else {
          var j :| 0 <= j < |args| - 1 && !(CheckExpr(chain, args[1..][j]).Ok? && CheckExpr(chain, args[1..][j]).value.ty == Some(params[1..][j].paramType));
          assert args[1..][j] == args[j + 1] && params[1..][j] == params[j + 1];
        }
      }
    }
  }

  /**
   * A call checks exactly when its name resolves to a function with as many
   * parameters as there are arguments, each argument having its parameter's
   * type; its type is then the function's return type.
   */
  lemma CallRule(chain: Chain, name: string, args: seq<Expr>)
    ensures var r := CheckCall(chain, name, args);
            var f := Lookup(chain, name);
            (r.Ok? <==> Resolves(chain, name) && f.value.FuncEntry? && |args| == |f.value.parameters| &&
                        forall i :: 0 <= i < |args| ==> CheckExpr(chain, args[i]).Ok? &&
                                                         CheckExpr(chain, args[i]).value.ty == Some(f.value.parameters[i].paramType)) &&
            (r.Ok? ==> r.value.ty == f.value.returnType)
  {
    var f := Lookup(chain, name);
    if Resolves(chain, name) && f.value.FuncEntry? && |args| == |f.value.parameters| {
      ArgsRule(chain, name, args, f.value.parameters);
    }
  }

  // ------------------------------------------------------------ functions

  /** The parameter names are pairwise different and none is bound in `entries`. */
  ghost predicate FreshNames(entries: map<string, Entry>, params: seq<Parameter>) {
    (forall i :: 0 <= i < |params| ==> params[i].name !in entries) &&
    (forall i, j :: 0 <= i < j < |params| ==> params[i].name != params[j].name)
  }

  /**
   * Adding the parameters in order succeeds exactly when their names are
   * fresh; it then binds each one to its type and keeps what was there.
   */
  lemma {:induction false} AddParamsRule(entries: map<string, Entry>, params: seq<Parameter>)
    ensures var p := AddParams(entries, params);
            (p.error.None? <==> FreshNames(entries, params)) &&
            (p.error.None? ==> Extends(p.entries, entries) &&
                               forall i :: 0 <= i < |params| ==> params[i].name in p.entries &&
                                                                 p.entries[params[i].name] == ParamEntry(params[i].paramType))
    decreases |params|
  {
    if |params| > 0 {
      var e1 := entries[params[0].name := ParamEntry(params[0].paramType)];
      AddParamsRule(e1, params[1..]);
      forall i | 1 <= i < |params|
        ensures params[1..][i - 1] == params[i]
      {
      }
      if params[0].name !in entries {
        assert FreshNames(entries, params) <==> FreshNames(e1, params[1..]) by {
          if FreshNames(e1, params[1..]) {
            forall i, j | 0 <= i < j < |params|
              ensures params[i].name != params[j].name
            {
              if i == 0 {
                assert params[1..][j - 1] == params[j];
              } else {
                assert params[1..][i - 1] == params[i] && params[1..][j - 1] == params[j];
              }
            }
          }
          if FreshNames(entries, params) {
            forall i | 0 <= i < |params| - 1
              ensures params[1..][i].name !in e1
            {
              assert params[1..][i] == params[i + 1];
            }
            forall i, j | 0 <= i < j < |params| - 1
              ensures params[1..][i].name != params[1..][j].name
            {
              assert params[1..][i] == params[i + 1] && params[1..][j] == params[j + 1];
            }
          }
        }
      }
    }
  }

  /**
   * A function declaration that passes binds its name in the current table
   * and creates exactly one child scope, of kind "function", holding
   * 'return_type' and every parameter with its type.
   */
  lemma FunctionScopeRule(chain: Chain, s: Stmt)
    requires |chain| > 0 && s.Function?
    ensures var r := CheckStmt(chain, s);
            r.error.None? ==>
              r.top == chain[0].entries[s.name := FuncEntry(s.parameters, s.returnType)] &&
              |r.children| == 1 && r.children[0].scopeType == "function" &&
              BindsSignature(r.children[0].entries, s)
  {
    var top := chain[0].entries;
    if !Resolves(chain, s.name) && s.name !in top {
      var top1 := top[s.name := FuncEntry(s.parameters, s.returnType)];
      var f := CheckFunctionScope(WithTop(chain, top1), s);
      assert CheckStmt(chain, s) == StmtOutcome(f.error, top1, [Scope("function", f.entries)], f.stmt);
      ScopeBindsSignature(WithTop(chain, top1), s);
    }
  }

  /** A function's scope binds 'return_type' to its return type and each parameter to its type. */
  ghost predicate BindsSignature(entries: map<string, Entry>, s: Stmt)
    requires s.Function?
  {
    "return_type" in entries && entries["return_type"] == ReturnTypeEntry(s.returnType) &&
    forall i :: 0 <= i < |s.parameters| ==>
      s.parameters[i].name in entries && entries[s.parameters[i].name] == ParamEntry(s.parameters[i].paramType)
  }

  /** A function scope that passes still binds the signature after its body. */
  lemma ScopeBindsSignature(outer: Chain, s: Stmt)
    requires s.Function?
    ensures var f := CheckFunctionScope(outer, s); f.error.None? ==> BindsSignature(f.entries, s)
  {
    var start := map["return_type" := ReturnTypeEntry(s.returnType)];
    AddParamsRule(start, s.parameters);
    var p := AddParams(start, s.parameters);
    if p.error.None? {
      var inner := [Scope("function", p.entries)] + outer;
      BlockKeepsBindings(inner, s.body);
    }
  }

  /** A parameter named 'return_type' is always rejected: the name is already bound in the new scope. */
  lemma ReturnTypeParameterRejected(chain: Chain, s: Stmt, i: nat)
    requires |chain| > 0 && s.Function? && i < |s.parameters| && s.parameters[i].name == "return_type"
    ensures CheckStmt(chain, s).error.Some?
  {
    var top := chain[0].entries;
    if !Resolves(chain, s.name) && s.name !in top {
      var top1 := top[s.name := FuncEntry(s.parameters, s.returnType)];
      var start := map["return_type" := ReturnTypeEntry(s.returnType)];
      AddParamsRule(start, s.parameters);
      assert !FreshNames(start, s.parameters) by {
        assert s.parameters[i].name in start;
      }
      var f := CheckFunctionScope(WithTop(chain, top1), s);
      assert f.error.Some?;
      assert CheckStmt(chain, s) == StmtOutcome(f.error, top1, [Scope("function", f.entries)], f.stmt);
    }
  }

  /**
   * Once the name is fresh, the parameters bound and the body checked, a
   * function fails with MissingReturn exactly when it declares a return
   * type and none of the body's own statements is a Return; a failure
   * while binding the parameters or checking the body is reported instead.
   */
  lemma MissingReturnRule(chain: Chain, s: Stmt)
    requires |chain| > 0 && s.Function?
    requires !Resolves(chain, s.name) && s.name !in chain[0].entries
    ensures var outer := WithTop(chain, chain[0].entries[s.name := FuncEntry(s.parameters, s.returnType)]);
            var p := AddParams(map["return_type" := ReturnTypeEntry(s.returnType)], s.parameters);
            var b := CheckBlock([Scope("function", p.entries)] + outer, s.body);
            var e := CheckStmt(chain, s).error;
            && (p.error.Some? ==> e == p.error)
            && (p.error.None? && b.error.Some? ==> e == b.error)
            && (p.error.None? && b.error.None? ==>
                  e == if Truthy(s.returnType) && !HasTopLevelReturn(s.body) then Some(MissingReturn(s.name)) else None)
  {
    var outer := WithTop(chain, chain[0].entries[s.name := FuncEntry(s.parameters, s.returnType)]);
    assert CheckStmt(chain, s) == CheckFunction(chain, s);
    assert CheckFunction(chain, s).error == CheckFunctionScope(outer, s).error;
  }

  /**
   * The return check looks only at the body's own statements: a function
   * with a return type whose Return sits inside an If fails.
   */
  lemma NestedReturnIsMissing()
    ensures CheckStmt(GlobalChain(map[]),
              Function("f", [], Some("int"), [If(Bool(true), [Return(Some(Integer(1)))], NoElse)])).error
            == Some(MissingReturn("f"))
  {
    var s := Function("f", [], Some("int"), [If(Bool(true), [Return(Some(Integer(1)))], NoElse)]);
    var outer := WithTop(GlobalChain(map[]), map["f" := FuncEntry([], Some("int"))]);
    var scope := map["return_type" := ReturnTypeEntry(Some("int"))];
    var chain := [Scope("function", scope)] + outer;
    assert FirstOfType(chain, "function") == Some(0);
    assert Lookup(chain, "return_type") == Some(ReturnTypeEntry(Some("int")));
    var ret := Return(Some(Integer(1)));
    assert CheckStmt(chain, ret) == StmtOutcome(None, scope, [], ret);
    assert CheckBlock(chain, [ret]) == BlockOutcome(None, scope, [], [ret]);
    assert !HasTopLevelReturn(s.body);
  }
}
