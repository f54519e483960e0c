/**
 * What the IR generator's output looks like: expression code carries no
 * control-flow marker, the code of every statement, block and generated
 * function is well nested for every scan of the stack machine, the module's
 * function table keeps the last function created under each name, and the
 * entry function 'main' ends by calling '_actual_main' or returning 0.
 */
module IrProps {
  import opened Wrappers
  import opened Ast
  import opened Scopes
  import opened Opcodes
  import opened IrSpec
  import opened Nesting
  import opened VmSpec

  /** No IF, ELSE, ENDIF, LOOP or ENDLOOP. */
  predicate Unmarked(s: seq<Instr>) {
    forall i :: 0 <= i < |s| ==> !s[i].IsMarker()
  }

  /** The code of every function in the list is well nested. */
  ghost predicate AllWellNested(fs: seq<FuncRec>) {
    forall k :: 0 <= k < |fs| ==> WellNested(fs[k].code)
  }

  /** A successful generation leaves well-nested code in the current function and in every function it created. */
  ghost predicate EmitWellNested(r: Result<Emit, IrError>) {
    r.Ok? ==> WellNested(r.value.code) && AllWellNested(r.value.funcs)
  }

  // ------------------------------------------------------------ expressions

  /** Every binary opcode is an arithmetic or comparison instruction, never a marker. */
  lemma BinopCodeUnmarked(lt: Option<TypeName>, op: string, rt: Option<TypeName>)
    ensures BinopCode(lt, op, rt).Some? ==> !BinopCode(lt, op, rt).value.IsMarker()
  {
    assert forall k :: k in BinopCodes ==> !BinopCodes[k].IsMarker();
  }

  lemma BinopInstrUnmarked(env: IrEnv, op: string, l: Expr, r: Expr)
    ensures BinopInstr(env, op, l, r).Ok? ==> !BinopInstr(env, op, l, r).value.IsMarker()
  {
    if ExprType(env, l).Ok? && ExprType(env, r).Ok? {
      BinopCodeUnmarked(ExprType(env, l).value, op, ExprType(env, r).value);
    }
  }

  /** The unary operators lower to a multiplication by -1, GROW or nothing. */
  lemma UnaryopCodeUnmarked(op: string, t: Option<TypeName>)
    ensures UnaryopCode(op, t).Some? ==> Unmarked(UnaryopCode(op, t).value)
  {
    assert forall k :: k in UnaryopCodes ==> Unmarked(UnaryopCodes[k]);
  }

  /** Expressions lower to straight-line code: no structured marker appears in it. */
  lemma {:induction false} ExprCodeUnmarked(env: IrEnv, e: Expr)
    ensures ExprCode(env, e).Ok? ==> Unmarked(ExprCode(env, e).value)
    decreases e, 1
  {
    match e
    case BinOp(op, l, r) =>
      ExprCodeUnmarked(env, l);
      ExprCodeUnmarked(env, r);
      BinopInstrUnmarked(env, op, l, r);
    case UnaryOp(op, x) =>
      ExprCodeUnmarked(env, x);
      if HasTypeAttr(x) {
        UnaryopCodeUnmarked(op, TypeAttr(x));
      }
    case TypeCast(_, x) =>
      ExprCodeUnmarked(env, x);
    case FunctionCall(_, args) =>
      ArgsCodeUnmarked(env, args);
    case _ =>
  }

  lemma {:induction false} ArgsCodeUnmarked(env: IrEnv, args: seq<Expr>)
    ensures ArgsCode(env, args).Ok? ==> Unmarked(ArgsCode(env, args).value)
    decreases args, 0
  {
    if |args| > 0 {
      ExprCodeUnmarked(env, args[0]);
      ArgsCodeUnmarked(env, args[1..]);
    }
  }

  /** Straight-line code followed by a non-marker is well nested. */
  lemma UnmarkedThenWellNested(x: seq<Instr>, i: Instr)
    requires Unmarked(x) && !i.IsMarker()
    ensures WellNested(x + [i])
  {
    UnmarkedWellNested(x + [i]);
  }

  // ------------------------------------------------------------ statements

  /**
   * Every statement lowers to code that is well nested for the IF, ELSE,
   * CBREAK and CONTINUE scans, and so does every function it creates.
   */
  lemma {:induction false} StmtEmitWellNested(env: IrEnv, s: Stmt)
    ensures EmitWellNested(StmtEmit(env, s))
    decreases s, 1
  {
    var r := StmtEmit(env, s);
    match s
    case Assignment(loc, x) =>
      ExprCodeUnmarked(env, x);
      if r.Ok? {
        UnmarkedThenWellNested(ExprCode(env, x).value, Last(r.value.code));
      }
    case Print(x) =>
      ExprCodeUnmarked(env, x);
      if r.Ok? {
        UnmarkedThenWellNested(ExprCode(env, x).value, Last(r.value.code));
      }
    case ExprStmt(x) =>
      ExprCodeUnmarked(env, x);
      if r.Ok? {
        UnmarkedWellNested(r.value.code);
      }
    case If(_, _, _) =>
      IfEmitWellNested(env, s);
    case While(_, _) =>
      WhileEmitWellNested(env, s);
    case Return(v) =>
      if v.Some? {
        ExprCodeUnmarked(env, v.value);
        if r.Ok? {
          UnmarkedThenWellNested(ExprCode(env, v.value).value, RET);
        }
      } else {
        JumpWellNested(RET);
      }
    case Variable(_, _, init, _) =>
      if init.Some? {
        ExprCodeUnmarked(env, init.value);
        if r.Ok? {
          UnmarkedThenWellNested(ExprCode(env, init.value).value, Last(r.value.code));
        }
      } else {
        UnmarkedWellNested([]);
      }
    case Function(_, _, _, body) =>
      BlockEmitWellNested(env, body);
      UnmarkedWellNested([]);
    case Break =>
      JumpWellNested(CBREAK);
    case Continue =>
      JumpWellNested(CONTINUE);
  }

  /** The `if` case of StmtEmitWellNested. */
  lemma {:induction false} IfEmitWellNested(env: IrEnv, s: Stmt)
    requires s.If?
    ensures EmitWellNested(StmtEmit(env, s))
    decreases s, 0
  {
    var r := StmtEmit(env, s);
    var test, c, alt := s.test, s.consequence, s.alternative;
    ExprCodeUnmarked(env, test);
    BlockEmitWellNested(env, c);
    if alt.Else? {
      BlockEmitWellNested(env, alt.stmts);
    }
    if r.Ok? {
      var T := ExprCode(env, test).value;
      var C := BlockEmit(env, c).value;
      var A := if alt.Else? && |alt.stmts| > 0 then BlockEmit(env, alt.stmts).value else CodeOnly([]);
      UnmarkedWellNested(T);
      if !(alt.Else? && |alt.stmts| > 0) {
        UnmarkedWellNested(A.code);
      }
      IfBlockWellNested(T, C.code, A.code);
      assert r.value.funcs == C.funcs + A.funcs;
    }
  }

  /** The `while` case of StmtEmitWellNested. */
  lemma {:induction false} WhileEmitWellNested(env: IrEnv, s: Stmt)
    requires s.While?
    ensures EmitWellNested(StmtEmit(env, s))
    decreases s, 0
  {
    var r := StmtEmit(env, s);
    ExprCodeUnmarked(env, s.test);
    BlockEmitWellNested(env, s.body);
    if r.Ok? {
      var T := ExprCode(env, s.test).value;
      UnmarkedWellNested(T);
      WhileBlockWellNested(T, BlockEmit(env, s.body).value.code);
    }
  }

  lemma {:induction false} BlockEmitWellNested(env: IrEnv, stmts: seq<Stmt>)
    ensures EmitWellNested(BlockEmit(env, stmts))
    decreases stmts, 2
  {
    if |stmts| == 0 {
      UnmarkedWellNested([]);
    } else {
      StmtEmitWellNested(env, stmts[0]);
      BlockEmitWellNested(env, stmts[1..]);
      var r := BlockEmit(env, stmts);
      if r.Ok? {
        var h := StmtEmit(env, stmts[0]).value;
        var t := BlockEmit(env, stmts[1..]).value;
        WellNestedAppend(h.code, t.code);
        assert r.value.funcs == h.funcs + t.funcs;
      }
    }
  }

  // ------------------------------------------------------------ the module

  /** The names a registry holds are the names of the functions registered. */
  lemma {:induction false} RegistryNames(fs: seq<FuncRec>, n: string)
    ensures n in Registry(fs) <==> exists k :: 0 <= k < |fs| && fs[k].name == n
    decreases |fs|
  {
    if |fs| > 0 {
      var init := fs[..|fs| - 1];
      RegistryNames(init, n);
      assert Registry(fs) == Registry(init)[fs[|fs| - 1].name := fs[|fs| - 1]];
      if exists k :: 0 <= k < |fs| && fs[k].name == n {
        var k :| 0 <= k < |fs| && fs[k].name == n;
        if k < |fs| - 1 {
          assert init[k].name == n;
        }
      }
      if exists k :: 0 <= k < |init| && init[k].name == n {
        var k :| 0 <= k < |init| && init[k].name == n;
        assert fs[k] == init[k];
      }
    }
  }

  /**
   * The function table: a name is registered exactly when some created
   * function has it, and it holds the last function created under it.
   */
  lemma {:induction false} RegistryLastWins(fs: seq<FuncRec>, n: string)
    ensures n in Registry(fs) <==> exists k :: 0 <= k < |fs| && fs[k].name == n
    ensures n in Registry(fs) ==>
              exists k :: 0 <= k < |fs| && Registry(fs)[n] == fs[k] && fs[k].name == n &&
                          forall j :: k < j < |fs| ==> fs[j].name != n
    decreases |fs|
  {
    RegistryNames(fs, n);
    if |fs| > 0 && n in Registry(fs) {
      var init := fs[..|fs| - 1];
      var last := |fs| - 1;
      assert Registry(fs) == Registry(init)[fs[last].name := fs[last]];
      if fs[last].name == n {
        assert Registry(fs)[n] == fs[last];
      } else {
        RegistryLastWins(init, n);
        var k :| 0 <= k < |init| && Registry(init)[n] == init[k] && init[k].name == n &&
                 forall j :: k < j < |init| ==> init[j].name != n;
        assert fs[k] == init[k];
        forall j | k < j < |fs|
          ensures fs[j].name != n
        {
          if j < last {
            assert fs[j] == init[j];
          }
        }
      }
    }
  }

  /** The entry function's code: the top-level code, then the call of '_actual_main' or a 0, then RET. */
  function EntryCode(topLevel: seq<Instr>, registry: map<string, FuncRec>): seq<Instr> {
    topLevel + [if "_actual_main" in registry then CALL("_actual_main") else CONSTI(0), RET]
  }

  /** Registering one function before a list: the list's registrations win over it. */
  lemma {:induction false} RegistryAfter(f: FuncRec, fs: seq<FuncRec>, n: string)
    ensures n in Registry([f] + fs) <==> n == f.name || n in Registry(fs)
    ensures n in Registry(fs) ==> Registry([f] + fs)[n] == Registry(fs)[n]
    ensures n == f.name && n !in Registry(fs) ==> Registry([f] + fs)[n] == f
    decreases |fs|
  {
    if |fs| > 0 {
      var init := fs[..|fs| - 1];
      assert ([f] + fs)[..|fs|] == [f] + init;
      RegistryAfter(f, init, n);
    }
  }

  /**
   * `gencode` registers 'main' first and then every function the program
   * defines, in order, so the module's names are 'main' and the defined
   * ones, and a program's own 'main' replaces the entry function.
   */
  lemma GencodeNames(env: IrEnv, stmts: seq<Stmt>, n: string)
    requires Gencode(env, stmts).Ok?
    ensures var B := BlockEmit(env, stmts).value;
            n in Gencode(env, stmts).value.functions <==> n == "main" || exists k :: 0 <= k < |B.funcs| && B.funcs[k].name == n
    ensures var B := BlockEmit(env, stmts).value;
            n in Registry(B.funcs) ==> n in Gencode(env, stmts).value.functions &&
                                       Gencode(env, stmts).value.functions[n] == Registry(B.funcs)[n]
  {
    var B := BlockEmit(env, stmts).value;
    var entry := FuncRec("main", [], [], "I", Apply(map[], B.locals), EntryCode(B.code, Registry(B.funcs)));
    assert Gencode(env, stmts).value.functions == Registry([entry] + B.funcs);
    RegistryAfter(entry, B.funcs, n);
    RegistryNames(B.funcs, n);
  }

  /**
   * When the program defines no function 'main', the module's 'main' is the
   * entry function: no parameters, return type 'I', the locals and code of
   * the top-level statements, ending with `CALL _actual_main` exactly when
   * the program defines '_actual_main' and with `CONSTI 0` otherwise, then
   * RET. The module's globals are the globals the top level declared.
   */
  lemma GencodeEntry(env: IrEnv, stmts: seq<Stmt>)
    requires Gencode(env, stmts).Ok?
    requires forall k :: 0 <= k < |BlockEmit(env, stmts).value.funcs| ==> BlockEmit(env, stmts).value.funcs[k].name != "main"
    ensures var B := BlockEmit(env, stmts).value;
            var m := Gencode(env, stmts).value;
            var defined := exists k :: 0 <= k < |B.funcs| && B.funcs[k].name == "_actual_main";
            && "main" in m.functions
            && m.functions["main"] == FuncRec("main", [], [], "I", Apply(map[], B.locals),
                                              B.code + [if defined then CALL("_actual_main") else CONSTI(0), RET])
            && m.globals == Apply(map[], B.globals)
  {
    var B := BlockEmit(env, stmts).value;
    var entry := FuncRec("main", [], [], "I", Apply(map[], B.locals), EntryCode(B.code, Registry(B.funcs)));
    assert Gencode(env, stmts).value.functions == Registry([entry] + B.funcs);
    RegistryLastWins(B.funcs, "main");
    RegistryLastWins(B.funcs, "_actual_main");
    RegistryAfter(entry, B.funcs, "main");
  }

  /** Every function of the generated module has well-nested code, the entry function included. */
  lemma GencodeWellNested(env: IrEnv, stmts: seq<Stmt>, n: string)
    requires Gencode(env, stmts).Ok? && n in Gencode(env, stmts).value.functions
    ensures WellNested(Gencode(env, stmts).value.functions[n].code)
  {
    var B := BlockEmit(env, stmts).value;
    BlockEmitWellNested(env, stmts);
    var tail := if "_actual_main" in Registry(B.funcs) then CALL("_actual_main") else CONSTI(0);
    var entry := FuncRec("main", [], [], "I", Apply(map[], B.locals), B.code + [tail, RET]);
    assert Gencode(env, stmts).value.functions == Registry([entry] + B.funcs);
    RegistryAfter(entry, B.funcs, n);
    if n in Registry(B.funcs) {
      RegistryLastWins(B.funcs, n);
    } else {
      UnmarkedWellNested([tail, RET]);
      WellNestedAppend(B.code, [tail, RET]);
    }
  }

  // ------------------------------------------------------------ declarations

  /** `_typemap` over the parameters succeeds exactly when every parameter has one of the four types; 'float' maps to 'F', the rest to 'I'. */
  lemma {:induction false} ParamTypesRule(params: seq<Parameter>)
    ensures ParamTypes(params).Ok? <==> forall k :: 0 <= k < |params| ==> params[k].paramType in {"int", "float", "bool", "char"}
    ensures ParamTypes(params).Ok? ==>
              forall k :: 0 <= k < |params| ==> ParamTypes(params).value[k] == (if params[k].paramType == "float" then "F" else "I")
    decreases |params|
  {
    if |params| > 0 {
      ParamTypesRule(params[1..]);
      assert forall k :: 1 <= k < |params| ==> params[k] == params[1..][k - 1];
    }
  }

  /**
   * A function declaration appends nothing to the enclosing function: it
   * creates one function record, first, whose parameter names are the
   * declared ones in order, whose parameter and return types are mapped
   * ('float' to 'F', the others to 'I'), and whose locals and code are those
   * its body declares and emits; the body's nested functions follow it.
   */
  lemma FunctionRecord(env: IrEnv, name: string, params: seq<Parameter>, rt: Option<TypeName>, body: seq<Stmt>)
    requires StmtEmit(env, Function(name, params, rt, body)).Ok?
    ensures var e := StmtEmit(env, Function(name, params, rt, body)).value;
            var B := BlockEmit(env, body).value;
            && e.code == [] && e.locals == [] && e.globals == B.globals && |e.funcs| == 1 + |B.funcs|
            && e.funcs[0].name == name && e.funcs[1..] == B.funcs
            && (forall k :: 0 <= k < |params| ==> e.funcs[0].parmnames[k] == params[k].name)
            && |e.funcs[0].parmnames| == |e.funcs[0].parmtypes| == |params|
            && (forall k :: 0 <= k < |params| ==> e.funcs[0].parmtypes[k] == (if params[k].paramType == "float" then "F" else "I"))
            && e.funcs[0].returnType == (if rt == Some("float") then "F" else "I")
            && e.funcs[0].locals == Apply(map[], B.locals) && e.funcs[0].code == B.code
  {
    ParamTypesRule(params);
  }

  /** The signature `(a int, b int) int` of the test program's `mod` and `gcd` becomes `['a','b']`, `['I','I']`, 'I'. */
  lemma TwoIntParamsSignature(env: IrEnv, name: string, body: seq<Stmt>)
    requires StmtEmit(env, Function(name, [Parameter("a", "int"), Parameter("b", "int")], Some("int"), body)).Ok?
    ensures var f := StmtEmit(env, Function(name, [Parameter("a", "int"), Parameter("b", "int")], Some("int"), body)).value.funcs[0];
            f.name == name && f.parmnames == ["a", "b"] && f.parmtypes == ["I", "I"] && f.returnType == "I"
  {
    FunctionRecord(env, name, [Parameter("a", "int"), Parameter("b", "int")], Some("int"), body);
  }

  /**
   * Locality is decided once for the whole program: a name that any
   * function's scope binds is stored with LOCAL_SET wherever it is assigned,
   * at top level too, and is then declared as a local of the current function
   * instead of as a module global.
   */
  lemma LocalOfAnyFunctionIsLocalEverywhere(env: IrEnv, i: int, name: string, t: Option<TypeName>, x: Expr)
    requires 0 <= i < |env.children| && FunctionScopeBinds(env.children[i], name)
    requires StmtEmit(env, Variable(name, t, Some(x), false)).Ok?
    ensures var e := StmtEmit(env, Variable(name, t, Some(x), false)).value;
            Last(e.code) == LOCAL_SET(name) && e.globals == [] && e.locals == [Decl(name, TypeMap(t).value)]
  {
  }

  /** A declaration without an initial value generates nothing and declares nothing. */
  lemma UninitializedVariableEmitsNothing(env: IrEnv, name: string, t: Option<TypeName>, c: bool)
    ensures StmtEmit(env, Variable(name, t, None, c)) == Ok(CodeOnly([]))
  {
  }

  /** The test environment: an empty global table with one empty function scope as its child. */
  const TestEnv: IrEnv := IrEnv([Scope("global", map[])], [Scope("function", map[])])

  /** `var result int = 1;` outside every function: CONSTI 1, GLOBAL_SET result, and a module global of type 'I'. */
  lemma GlobalVariableExample()
    ensures StmtEmit(TestEnv, Variable("result", Some("int"), Some(Integer(1)), false)) ==
            Ok(Emit([CONSTI(1), GLOBAL_SET("result")], [], [Decl("result", "I")], []))
  {
    assert !IsLocal(TestEnv, "result");
    assert ExprCode(TestEnv, Integer(1)) == Ok([CONSTI(1)]);
    assert [CONSTI(1)] + [GLOBAL_SET("result")] == [CONSTI(1), GLOBAL_SET("result")];
  }

  /** `return 42;` is CONSTI 42, RET and `print 42;` is CONSTI 42, PRINTI. */
  lemma ReturnAndPrintExamples()
    ensures StmtEmit(TestEnv, Return(Some(Integer(42)))) == Ok(CodeOnly([CONSTI(42), RET]))
    ensures StmtEmit(TestEnv, Print(Integer(42))) == Ok(CodeOnly([CONSTI(42), PRINTI]))
  {
    assert ExprCode(TestEnv, Integer(42)) == Ok([CONSTI(42)]);
    assert [CONSTI(42)] + [RET] == [CONSTI(42), RET];
    assert [CONSTI(42)] + [PRINTI] == [CONSTI(42), PRINTI];
  }
}
