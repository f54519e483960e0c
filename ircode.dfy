/**
 * The IR generator of ircode.py as it runs: an `IRModule` holding the
 * functions and globals, `IRFunction`s that register themselves in their
 * module and collect locals and instructions, and the `IRCode` visitor that
 * appends each node's instructions to the function it is given. Every visit
 * is proved to do what module IrSpec says: on success the function's code,
 * its locals, the module's globals and the functions created are exactly
 * those of `StmtEmit`/`ExprCode`; on failure the error is the one the
 * generator raises.
 */
module IrCode {
  import opened Wrappers
  import opened Ast
  import opened Scopes
  import opened Opcodes
  import opened Symbols
  import opened IrSpec
  import IrProps

  /** `irModule.functions` after the functions in `fs` registered themselves in order: a later one of the same name wins. */
  ghost function Registered(fs: seq<IRFunction>): map<string, IRFunction>
    decreases |fs|
  {
    if |fs| == 0 then map[] else Registered(fs[..|fs| - 1])[fs[|fs| - 1].name := fs[|fs| - 1]]
  }

  class IRModule {
    var functions: map<string, IRFunction>
    /** The module globals, by name, with their IR type (`IRGlobal`). */
    var globals: map<string, string>
    /** Every function created for this module, in creation order. */
    ghost var created: seq<IRFunction>

    /** The function table is what the created functions registered; each knows its place in creation order. */
    ghost predicate Valid()
      reads this
    {
      && functions == Registered(created)
      && forall k | 0 <= k < |created| :: created[k].serial == k
    }

    constructor ()
      ensures functions == map[] && globals == map[] && created == [] && Valid()
    {
      functions := map[];
      globals := map[];
      created := [];
    }
  }

  class IRFunction {
    const irModule: IRModule
    const name: string
    const parmnames: seq<string>
    const parmtypes: seq<string>
    const returnType: string
    var locals: map<string, string>
    var code: seq<Instr>
    /** Its place in `irModule.created`. */
    ghost const serial: nat

    /** A new empty function, registered in `irModule.functions` under its name (replacing any earlier one). */
    constructor (irModule: IRModule, name: string, parmnames: seq<string>, parmtypes: seq<string>, returnType: string)
      modifies irModule
      ensures this.irModule == irModule && this.name == name && this.parmnames == parmnames
      ensures this.parmtypes == parmtypes && this.returnType == returnType
      ensures locals == map[] && code == []
      ensures irModule.functions == old(irModule.functions)[name := this] && irModule.globals == old(irModule.globals)
      ensures irModule.created == old(irModule.created) + [this] && serial == |old(irModule.created)|
      ensures old(irModule.Valid()) ==> irModule.Valid()
    {
      this.irModule := irModule;
      this.serial := |irModule.created|;
      this.name := name;
      this.parmnames := parmnames;
      this.parmtypes := parmtypes;
      this.returnType := returnType;
      locals := map[];
      code := [];
      new;
      ghost var before := irModule.created;
      irModule.functions := irModule.functions[name := this];
      irModule.created := irModule.created + [this];
      assert irModule.created[..|irModule.created| - 1] == before;
    }

    /** `new_local`: declare (or redeclare) a local with its IR type. */
    method NewLocal(n: string, t: string)
      modifies this
      ensures locals == old(locals)[n := t] && code == old(code)
    {
      locals := locals[n := t];
    }

    /** `append`: one more instruction at the end of the code. */
    method Append(instr: Instr)
      modifies this
      ensures code == old(code) + [instr] && locals == old(locals)
    {
      code := code + [instr];
    }

    /** The function's value. */
    function Rec(): FuncRec
      reads this
    {
      FuncRec(name, parmnames, parmtypes, returnType, locals, code)
    }
  }

  /** The values of a list of functions, in order. */
  function Recs(fs: seq<IRFunction>): (r: seq<FuncRec>)
    reads fs
    ensures |r| == |fs|
    decreases |fs|
  {
    if |fs| == 0 then [] else Recs(fs[..|fs| - 1]) + [fs[|fs| - 1].Rec()]
  }

  /** The live function table and the table of values agree name by name. */
  lemma {:induction false} RegisteredIsRegistry(fs: seq<IRFunction>, n: string)
    ensures n in Registered(fs) <==> n in Registry(Recs(fs))
    ensures n in Registered(fs) ==> Registered(fs)[n].Rec() == Registry(Recs(fs))[n]
    decreases |fs|
  {
    if |fs| > 0 {
      var init := fs[..|fs| - 1];
      assert Recs(fs)[..|fs| - 1] == Recs(init);
      RegisteredIsRegistry(init, n);
    }
  }

  /** `b` extends `a`. */
  ghost predicate Grown<T>(a: seq<T>, b: seq<T>) {
    |a| <= |b| && b[..|a|] == a
  }

  lemma GrownTrans<T>(a: seq<T>, b: seq<T>, c: seq<T>)
    requires Grown(a, b) && Grown(b, c)
    ensures Grown(a, c)
  {
    assert c[..|a|] == c[..|b|][..|a|];
  }

  /** What generation can change, seen from one function: its code and locals, the module's globals and the functions created so far. */
  datatype Snap = Snap(code: seq<Instr>, locals: map<string, string>, globals: map<string, string>, created: seq<IRFunction>)

  ghost function Now(func: IRFunction): Snap
    reads func, func.irModule
  {
    Snap(func.code, func.locals, func.irModule.globals, func.irModule.created)
  }

  /** The values of the functions created since the first `n`, as they are now. */
  ghost function MadeSince(func: IRFunction, n: nat): seq<FuncRec>
    reads func.irModule, func.irModule.created
  {
    var c := func.irModule.created;
    if n <= |c| then Recs(c[n..]) else []
  }

  /**
   * Going from `a` to `b` did `e`: it appended e's code, declared e's locals
   * and globals in order, and created functions whose values (`made`) are
   * e's functions.
   */
  ghost predicate Did(e: Emit, a: Snap, b: Snap, made: seq<FuncRec>) {
    && b.code == a.code + e.code
    && b.locals == Apply(a.locals, e.locals)
    && b.globals == Apply(a.globals, e.globals)
    && Grown(a.created, b.created)
    && made == e.funcs
  }

  /** A visit's outcome: the error the generator raises, or on success exactly what `r` describes. */
  ghost predicate Generated(r: Result<Emit, IrError>, err: Option<IrError>, a: Snap, b: Snap, made: seq<FuncRec>) {
    && (err.None? <==> r.Ok?)
    && (err.Some? ==> err.value == r.error)
    && (err.None? ==> Did(r.value, a, b, made))
  }

  /** A function created before the first `n` is not among those created since. */
  lemma OlderNotIn(m: IRModule, f: IRFunction, n: nat)
    requires m.Valid() && f.serial < n <= |m.created|
    ensures f !in m.created[n..]
  {
  }

  /**
   * `func.append(instr)`, seen from the functions created since the first
   * `n`, split at `m`: none of them is `func`, so they keep their values.
   */
  method AppendKeeping(func: IRFunction, instr: Instr, ghost n: nat, ghost m: nat)
    requires func.irModule.Valid() && func.serial < n <= m <= |func.irModule.created|
    modifies func
    ensures func.code == old(func.code) + [instr] && func.locals == old(func.locals)
    ensures Recs(func.irModule.created[n..m]) == old(Recs(func.irModule.created[n..m]))
    ensures Recs(func.irModule.created[m..]) == old(Recs(func.irModule.created[m..]))
  {
    OlderNotIn(func.irModule, func, n);
    assert func !in func.irModule.created[n..m] && func !in func.irModule.created[m..];
    func.Append(instr);
  }

  // ------------------------------------------------------------ composition

  lemma {:induction false} ApplyAppend(m: map<string, string>, a: seq<Decl>, b: seq<Decl>)
    ensures Apply(m, a + b) == Apply(Apply(m, a), b)
    decreases |a|
  {
    if |a| == 0 {
      assert a + b == b;
    } else {
      assert (a + b)[0] == a[0] && (a + b)[1..] == a[1..] + b;
      ApplyAppend(m[a[0].name := a[0].irType], a[1..], b);
    }
  }

  lemma {:induction false} RecsAppend(a: seq<IRFunction>, b: seq<IRFunction>)
    ensures Recs(a + b) == Recs(a) + Recs(b)
    decreases |b|
  {
    if |b| == 0 {
      assert a + b == a;
    } else {
      assert (a + b)[..|a + b| - 1] == a + b[..|b| - 1];
      RecsAppend(a, b[..|b| - 1]);
    }
  }

  /** Doing `a` and then `b` did `Then(a, b)`. */
  lemma DidThen(a: Emit, b: Emit, s0: Snap, s1: Snap, s2: Snap, m1: seq<FuncRec>, m2: seq<FuncRec>)
    requires Did(a, s0, s1, m1) && Did(b, s1, s2, m2)
    ensures Did(Then(a, b), s0, s2, m1 + m2)
  {
    ApplyAppend(s0.locals, a.locals, b.locals);
    ApplyAppend(s0.globals, a.globals, b.globals);
  }

  /** Appending code alone. */
  lemma DidCode(c: seq<Instr>, s0: Snap, s1: Snap)
    requires s1 == s0.(code := s0.code + c)
    ensures Did(CodeOnly(c), s0, s1, [])
  {
  }

  /** The functions made since `n0` are those made up to `n1` and those made since. */
  lemma MadeSplit(func: IRFunction, n0: nat, n1: nat)
    requires n0 <= n1 <= |func.irModule.created|
    ensures MadeSince(func, n0) == Recs(func.irModule.created[n0..n1]) + MadeSince(func, n1)
  {
    var c := func.irModule.created;
    assert c[n0..] == c[n0..n1] + c[n1..];
    RecsAppend(c[n0..n1], c[n1..]);
  }

  lemma ThenAssociative(a: Emit, b: Emit, c: Emit)
    ensures Then(Then(a, b), c) == Then(a, Then(b, c))
  {
    assert (a.code + b.code) + c.code == a.code + (b.code + c.code);
    assert (a.locals + b.locals) + c.locals == a.locals + (b.locals + c.locals);
    assert (a.globals + b.globals) + c.globals == a.globals + (b.globals + c.globals);
    assert (a.funcs + b.funcs) + c.funcs == a.funcs + (b.funcs + c.funcs);
  }

  /** The whole block's result, given what is done (`acc`) and the result of the rest. */
  function BlockAfter(acc: Emit, rest: Result<Emit, IrError>): Result<Emit, IrError> {
    if rest.Err? then Err(rest.error) else Ok(Then(acc, rest.value))
  }

  lemma BlockStep(env: IrEnv, stmts: seq<Stmt>, i: int, acc: Emit)
    requires 0 <= i < |stmts|
    ensures StmtEmit(env, stmts[i]).Err? ==> BlockAfter(acc, BlockEmit(env, stmts[i..])) == Err(StmtEmit(env, stmts[i]).error)
    ensures StmtEmit(env, stmts[i]).Ok? ==>
              BlockAfter(acc, BlockEmit(env, stmts[i..])) ==
              BlockAfter(Then(acc, StmtEmit(env, stmts[i]).value), BlockEmit(env, stmts[i + 1..]))
  {
    assert stmts[i..][0] == stmts[i] && stmts[i..][1..] == stmts[i + 1..];
    var h := StmtEmit(env, stmts[i]);
    var t := BlockEmit(env, stmts[i + 1..]);
    if h.Ok? && t.Ok? {
      ThenAssociative(acc, h.value, t.value);
    }
  }

  lemma ThenNothing(a: Emit)
    ensures Then(a, CodeOnly([])) == a
  {
    assert a.code + [] == a.code && a.locals + [] == a.locals;
    assert a.globals + [] == a.globals && a.funcs + [] == a.funcs;
  }

  lemma NothingThen(a: Emit)
    ensures Then(CodeOnly([]), a) == a
  {
    assert [] + a.code == a.code && [] + a.locals == a.locals;
    assert [] + a.globals == a.globals && [] + a.funcs == a.funcs;
  }

  /** Before its first statement a block has done nothing, and all of it is still to come. */
  lemma BlockBegins(env: IrEnv, stmts: seq<Stmt>, s0: Snap)
    ensures Did(CodeOnly([]), s0, s0, Recs(s0.created[|s0.created|..]))
    ensures BlockEmit(env, stmts) == BlockAfter(CodeOnly([]), BlockEmit(env, stmts[0..]))
  {
    assert stmts[0..] == stmts;
    assert s0.code + [] == s0.code;
    assert s0.created[|s0.created|..] == [];
    if BlockEmit(env, stmts).Ok? {
      NothingThen(BlockEmit(env, stmts).value);
    }
  }

  /** After its last statement a block has done what it generates. */
  lemma BlockEnds(env: IrEnv, stmts: seq<Stmt>, whole: Result<Emit, IrError>, acc: Emit, a: Snap, b: Snap, made: seq<FuncRec>)
    requires Did(acc, a, b, made)
    requires whole == BlockAfter(acc, BlockEmit(env, stmts[|stmts|..]))
    ensures Generated(whole, None, a, b, made)
  {
    assert stmts[|stmts|..] == [];
    ThenNothing(acc);
  }

  /** The pieces of an `if`, done one after another, make up its `Emit`. */
  lemma IfPieces(T: seq<Instr>, C: Emit, A: Emit)
    ensures Then(CodeOnly(T + [IF]), Then(Then(C, CodeOnly([ELSE])), Then(A, CodeOnly([ENDIF])))) ==
            Emit(T + [IF] + C.code + [ELSE] + A.code + [ENDIF], C.locals + A.locals, C.globals + A.globals, C.funcs + A.funcs)
  {
    assert (T + [IF]) + ((C.code + [ELSE]) + (A.code + [ENDIF])) == T + [IF] + C.code + [ELSE] + A.code + [ENDIF];
    assert [] + ((C.locals + []) + (A.locals + [])) == C.locals + A.locals;
    assert [] + ((C.globals + []) + (A.globals + [])) == C.globals + A.globals;
    assert [] + ((C.funcs + []) + (A.funcs + [])) == C.funcs + A.funcs;
  }

  /** The pieces of a `while`, done one after another, make up its `Emit`. */
  lemma WhilePieces(T: seq<Instr>, B: Emit)
    ensures Then(CodeOnly([LOOP, CONSTI(1)] + T + [SUBI, CBREAK]), Then(B, CodeOnly([ENDLOOP]))) ==
            Emit([LOOP, CONSTI(1)] + T + [SUBI, CBREAK] + B.code + [ENDLOOP], B.locals, B.globals, B.funcs)
  {
    assert [] + (B.locals + []) == B.locals;
    assert [] + (B.globals + []) == B.globals;
    assert [] + (B.funcs + []) == B.funcs;
  }

  /** The code of an `if`'s alternative: none unless it is a non-empty `else`. */
  function AltCode(env: IrEnv, alt: Alternative): Result<Emit, IrError> {
    if alt.Else? && |alt.stmts| > 0 then BlockEmit(env, alt.stmts) else Ok(CodeOnly([]))
  }

  /** The end of an `if`: its alternative, then ENDIF. */
  function ElseCode(env: IrEnv, alt: Alternative): Result<Emit, IrError> {
    var A :- AltCode(env, alt);
    Ok(Then(A, CodeOnly([ENDIF])))
  }

  /** What an `if` does after its test and IF: the consequence, ELSE, then the alternative and ENDIF. */
  function IfRest(env: IrEnv, s: Stmt): Result<Emit, IrError>
    requires s.If?
  {
    var C :- BlockEmit(env, s.consequence);
    var E :- ElseCode(env, s.alternative);
    Ok(Then(Then(C, CodeOnly([ELSE])), E))
  }

  /** An `if` is its test and IF, then the rest: it fails with the test's error, else with the rest's. */
  lemma IfSplit(env: IrEnv, s: Stmt)
    requires s.If?
    ensures ExprCode(env, s.test).Err? ==> StmtEmit(env, s) == Err(ExprCode(env, s.test).error)
    ensures ExprCode(env, s.test).Ok? && IfRest(env, s).Err? ==> StmtEmit(env, s) == Err(IfRest(env, s).error)
    ensures ExprCode(env, s.test).Ok? && IfRest(env, s).Ok? ==>
              StmtEmit(env, s) == Ok(Then(CodeOnly(ExprCode(env, s.test).value + [IF]), IfRest(env, s).value))
  {
    var T := ExprCode(env, s.test);
    var C := BlockEmit(env, s.consequence);
    var A := AltCode(env, s.alternative);
    if T.Ok? && C.Ok? && A.Ok? {
      IfPieces(T.value, C.value, A.value);
    }
  }

  /** The rest of an `if` fails with the consequence's error, else with the alternative's. */
  lemma IfRestFails(env: IrEnv, s: Stmt)
    requires s.If?
    ensures BlockEmit(env, s.consequence).Err? ==> IfRest(env, s) == Err(BlockEmit(env, s.consequence).error)
    ensures BlockEmit(env, s.consequence).Ok? && ElseCode(env, s.alternative).Err? ==>
              IfRest(env, s) == Err(ElseCode(env, s.alternative).error)
  {
  }

  /** The consequence, ELSE, then the alternative and ENDIF, one after another, did the rest of the `if`. */
  lemma IfRestDid(env: IrEnv, s: Stmt, s0: Snap, s1: Snap, s2: Snap, s3: Snap, mC: seq<FuncRec>, mE: seq<FuncRec>)
    requires s.If? && BlockEmit(env, s.consequence).Ok? && ElseCode(env, s.alternative).Ok?
    requires Did(BlockEmit(env, s.consequence).value, s0, s1, mC)
    requires s2 == s1.(code := s1.code + [ELSE])
    requires Did(ElseCode(env, s.alternative).value, s2, s3, mE)
    ensures IfRest(env, s).Ok? && Did(IfRest(env, s).value, s0, s3, mC + mE)
  {
    var C := BlockEmit(env, s.consequence).value;
    DidCode([ELSE], s1, s2);
    DidThen(C, CodeOnly([ELSE]), s0, s1, s2, mC, []);
    DidThen(Then(C, CodeOnly([ELSE])), ElseCode(env, s.alternative).value, s0, s2, s3, mC + [], mE);
    assert mC + [] == mC;
  }

  /** What a `while` does after its head (through CBREAK): the body, then ENDLOOP. */
  function WhileRest(env: IrEnv, s: Stmt): Result<Emit, IrError>
    requires s.While?
  {
    var B :- BlockEmit(env, s.body);
    Ok(Then(B, CodeOnly([ENDLOOP])))
  }

  /** A `while` is LOOP, CONSTI 1, its test, SUBI and CBREAK, then the rest: it fails with the test's error, else with the body's. */
  lemma WhileSplit(env: IrEnv, s: Stmt)
    requires s.While?
    ensures ExprCode(env, s.test).Err? ==> StmtEmit(env, s) == Err(ExprCode(env, s.test).error)
    ensures ExprCode(env, s.test).Ok? && WhileRest(env, s).Err? ==> StmtEmit(env, s) == Err(WhileRest(env, s).error)
    ensures ExprCode(env, s.test).Ok? && WhileRest(env, s).Ok? ==>
              StmtEmit(env, s) == Ok(Then(CodeOnly([LOOP, CONSTI(1)] + ExprCode(env, s.test).value + [SUBI, CBREAK]), WhileRest(env, s).value))
  {
    var T := ExprCode(env, s.test);
    var B := BlockEmit(env, s.body);
    if T.Ok? && B.Ok? {
      WhilePieces(T.value, B.value);
    }
  }

  /** A function declaration fails with the error of a parameter type, else of the return type, else of its body. */
  lemma FunctionFails(env: IrEnv, s: Stmt)
    requires s.Function?
    ensures ParamTypes(s.parameters).Err? ==> StmtEmit(env, s) == Err(ParamTypes(s.parameters).error)
    ensures ParamTypes(s.parameters).Ok? && TypeMap(s.returnType).Err? ==> StmtEmit(env, s) == Err(TypeMap(s.returnType).error)
    ensures ParamTypes(s.parameters).Ok? && TypeMap(s.returnType).Ok? && BlockEmit(env, s.body).Err? ==>
              StmtEmit(env, s) == Err(BlockEmit(env, s.body).error)
  {
  }

  /**
   * Generating a declaration's body into a new empty function (`s1` to
   * `sN`) while nothing happens to the current one (`s0` to `sF`) did the
   * declaration: the new function, as the body left it, then the functions
   * the body made.
   */
  lemma FunctionDid(env: IrEnv, s: Stmt, s0: Snap, s1: Snap, sN: Snap, sF: Snap, rec: FuncRec, made: seq<FuncRec>)
    requires s.Function? && ParamTypes(s.parameters).Ok? && TypeMap(s.returnType).Ok? && BlockEmit(env, s.body).Ok?
    requires s1.code == [] && s1.locals == map[] && s1.globals == s0.globals && Grown(s0.created, s1.created)
    requires Did(BlockEmit(env, s.body).value, s1, sN, made)
    requires rec == FuncRec(s.name, ParamNames(s.parameters), ParamTypes(s.parameters).value, TypeMap(s.returnType).value, sN.locals, sN.code)
    requires sF == s0.(globals := sN.globals, created := sN.created)
    ensures StmtEmit(env, s).Ok? && Did(StmtEmit(env, s).value, s0, sF, [rec] + made)
  {
    var B := BlockEmit(env, s.body).value;
    assert [] + B.code == B.code;
    GrownTrans(s0.created, s1.created, sN.created);
  }

  /**
   * FunctionDid seen from the live objects: the new function `newFunc`
   * comes right after the functions of `s0`, and the function `func` that
   * holds the declaration kept its code and locals.
   */
  lemma FunctionBodyDid(env: IrEnv, s: Stmt, func: IRFunction, newFunc: IRFunction, s0: Snap, s1: Snap)
    requires s.Function? && ParamTypes(s.parameters).Ok? && TypeMap(s.returnType).Ok? && BlockEmit(env, s.body).Ok?
    requires newFunc.irModule == func.irModule
    requires s1 == Snap([], map[], s0.globals, s0.created + [newFunc])
    requires Grown(s1.created, func.irModule.created)
    requires Did(BlockEmit(env, s.body).value, s1, Now(newFunc), MadeSince(newFunc, |s1.created|))
    requires func.code == s0.code && func.locals == s0.locals
    requires newFunc.name == s.name && newFunc.parmnames == ParamNames(s.parameters)
    requires newFunc.parmtypes == ParamTypes(s.parameters).value && newFunc.returnType == TypeMap(s.returnType).value
    ensures StmtEmit(env, s).Ok? && Did(StmtEmit(env, s).value, s0, Now(func), MadeSince(func, |s0.created|))
  {
    var n0 := |s0.created|;
    var sN, sF := Now(newFunc), Now(func);
    assert sF == s0.(globals := sN.globals, created := sN.created);
    assert func.irModule.created[n0..n0 + 1] == [newFunc];
    MadeSplit(func, n0, n0 + 1);
    assert Recs([newFunc]) == [newFunc.Rec()];
    FunctionDid(env, s, s0, s1, sN, sF, newFunc.Rec(), MadeSince(newFunc, n0 + 1));
  }

  /**
   * The top level generated into an empty 'main' (`s0` to `s1`), then the
   * entry's tail, make the module `gencode` describes: 'main' first, then
   * the functions the top level made, and the top level's globals.
   */
  lemma GencodeDid(env: IrEnv, stmts: seq<Stmt>, s0: Snap, s1: Snap, made: seq<FuncRec>, tail: Instr)
    requires BlockEmit(env, stmts).Ok?
    requires s0.code == [] && s0.locals == map[] && s0.globals == map[]
    requires Did(BlockEmit(env, stmts).value, s0, s1, made)
    requires tail == if "_actual_main" in Registry(made) then CALL("_actual_main") else CONSTI(0)
    ensures IrSpec.Gencode(env, stmts) ==
            Ok(ModuleRec(Registry([FuncRec("main", [], [], "I", s1.locals, s1.code + [tail, RET])] + made), s1.globals))
  {
    var B := BlockEmit(env, stmts).value;
    assert [] + B.code == B.code;
  }

  /** A module whose first function is `main` followed by functions valued `made`: its table is `Registry([main's value] + made)`, name by name. */
  lemma Finish(m: IRModule, main: IRFunction, made: seq<FuncRec>)
    requires m.Valid() && |m.created| > 0 && m.created[0] == main && Recs(m.created[1..]) == made
    ensures m.functions.Keys == Registry([main.Rec()] + made).Keys
    ensures forall n | n in m.functions :: m.functions[n].Rec() == Registry([main.Rec()] + made)[n]
  {
    var c := m.created;
    assert c == [main] + c[1..];
    RecsAppend([main], c[1..]);
    assert Recs([main]) == [main.Rec()];
    forall n
      ensures n in m.functions <==> n in Registry([main.Rec()] + made)
      ensures n in m.functions ==> m.functions[n].Rec() == Registry([main.Rec()] + made)[n]
    {
      RegisteredIsRegistry(c, n);
    }
  }

  /** Whether the module has a function '_actual_main', seen from the functions created after 'main' (valued `made`). */
  lemma ActualMainIn(m: IRModule, main: IRFunction, made: seq<FuncRec>)
    requires m.Valid() && |m.created| > 0 && m.created[0] == main && main.name == "main"
    requires Recs(m.created[1..]) == made
    ensures "_actual_main" in m.functions <==> "_actual_main" in Registry(made)
  {
    var c := m.created;
    assert c == [main] + c[1..];
    RecsAppend([main], c[1..]);
    assert Recs([main]) == [main.Rec()];
    RegisteredIsRegistry(c, "_actual_main");
    IrProps.RegistryAfter(main.Rec(), made, "_actual_main");
  }

  /**
   * The end of the entry function: `CALL _actual_main` when the module has
   * a function of that name, else `CONSTI 0`, then RET. The functions
   * created after 'main' (valued `made`) keep their values.
   */
  /** The module built by `gencode` agrees with IrSpec.Gencode once its entry function has the described value. */
  lemma GenerateAgrees(env: IrEnv, stmts: seq<Stmt>, m: IRModule, main: IRFunction, made: seq<FuncRec>, entry: FuncRec)
    requires m.Valid() && |m.created| > 0 && m.created[0] == main && Recs(m.created[1..]) == made
    requires main.Rec() == entry
    requires IrSpec.Gencode(env, stmts) == Ok(ModuleRec(Registry([entry] + made), m.globals))
    ensures var spec := IrSpec.Gencode(env, stmts);
            && spec.Ok? && m.globals == spec.value.globals && m.functions.Keys == spec.value.functions.Keys
            && forall n | n in m.functions :: m.functions[n].Rec() == spec.value.functions[n]
  {
    Finish(m, main, made);
  }

  method EntryTail(main: IRFunction, ghost made: seq<FuncRec>) returns (tail: Instr)
    requires main.irModule.Valid() && |main.irModule.created| > 0 && main.irModule.created[0] == main && main.name == "main"
    requires Recs(main.irModule.created[1..]) == made
    modifies main
    ensures tail == if "_actual_main" in Registry(made) then CALL("_actual_main") else CONSTI(0)
    ensures main.code == old(main.code) + [tail, RET] && main.locals == old(main.locals)
    ensures Recs(main.irModule.created[1..]) == made
  {
    ActualMainIn(main.irModule, main, made);
    tail := if "_actual_main" in main.irModule.functions then CALL("_actual_main") else CONSTI(0);
    AppendKeeping(main, tail, 1, 1);
    AppendKeeping(main, RET, 1, 1);
  }

  /** The arguments' whole code, given the code done (`acc`) and the result of the rest. */
  function ArgsAfter(acc: seq<Instr>, rest: Result<seq<Instr>, IrError>): Result<seq<Instr>, IrError> {
    if rest.Err? then rest else Ok(acc + rest.value)
  }

  lemma ArgsStep(env: IrEnv, args: seq<Expr>, i: int, acc: seq<Instr>)
    requires 0 <= i < |args|
    ensures ExprCode(env, args[i]).Err? ==> ArgsAfter(acc, ArgsCode(env, args[i..])) == Err(ExprCode(env, args[i]).error)
    ensures ExprCode(env, args[i]).Ok? ==>
              ArgsAfter(acc, ArgsCode(env, args[i..])) ==
              ArgsAfter(acc + ExprCode(env, args[i]).value, ArgsCode(env, args[i + 1..]))
  {
    assert args[i..][0] == args[i] && args[i..][1..] == args[i + 1..];
    var a := ExprCode(env, args[i]);
    var t := ArgsCode(env, args[i + 1..]);
    if a.Ok? && t.Ok? {
      assert (acc + a.value) + t.value == acc + (a.value + t.value);
    }
  }

  /** A binary operation's code: its operands' code, then the opcode, or the first error. */
  lemma BinOpShape(env: IrEnv, e: Expr)
    requires e.BinOp?
    ensures var L := ExprCode(env, e.left);
            var R := ExprCode(env, e.right);
            var c := BinopInstr(env, e.op, e.left, e.right);
            ExprCode(env, e) ==
              if L.Err? then Err(L.error)
              else if R.Err? then Err(R.error)
              else if c.Err? then Err(c.error)
              else Ok(L.value + R.value + [c.value])
  {
  }

  /** A binary operation whose operands and opcode succeed generates their code, then the opcode. */
  lemma BinOpOk(env: IrEnv, e: Expr)
    requires e.BinOp? && ExprCode(env, e.left).Ok? && ExprCode(env, e.right).Ok?
    requires BinopInstr(env, e.op, e.left, e.right).Ok?
    ensures ExprCode(env, e) == Ok(ExprCode(env, e.left).value + ExprCode(env, e.right).value + [BinopInstr(env, e.op, e.left, e.right).value])
  {
  }

  lemma Associate(a: seq<Instr>, l: seq<Instr>, r: seq<Instr>, c: Instr)
    ensures a + l + r + [c] == a + (l + r + [c])
  {
  }

  lemma AppendAssoc(a: seq<Instr>, b: seq<Instr>, c: seq<Instr>)
    ensures a + b + c == a + (b + c)
  {
  }

  /** The code of a loop head, appended one instruction at a time. */
  lemma HeadJoin(a: seq<Instr>, t: seq<Instr>)
    ensures a + [LOOP] + [CONSTI(1)] + t + [SUBI] + [CBREAK] == a + ([LOOP, CONSTI(1)] + t + [SUBI, CBREAK])
  {
  }

  // ------------------------------------------------------------ the visitor

  class IRCode {
    /** The symbol table the checker returned. */
    const env: Symtab
    /** Its value view; generation never changes the table. */
    ghost const table: IrEnv

    constructor (env: Symtab)
      requires env.Linked()
      ensures this.env == env && Valid()
    {
      env.ChainAllocated();
      this.env := env;
      this.table := IrEnv(env.ChainView(), Views(env.children));
      new;
      assert table == Env();
    }

    /**
     * `gencode`: a generator over the checked table, then a new module with
     * an entry function 'main' that the top-level statements go into.
     */
    static method Gencode(stmts: seq<Stmt>, env: Symtab) returns (r: Result<IRModule, IrError>)
      requires env.Linked()
      ensures var spec := IrSpec.Gencode(IrEnv(env.ChainView(), Views(env.children)), stmts);
              && (r.Ok? <==> spec.Ok?)
              && (r.Err? ==> r.error == spec.error)
              && (r.Ok? ==> r.value.globals == spec.value.globals && r.value.functions.Keys == spec.value.functions.Keys)
              && (r.Ok? ==> forall n | n in r.value.functions :: r.value.functions[n].Rec() == spec.value.functions[n])
    {
      env.ChainAllocated();
      var ircode := new IRCode(env);
      r := ircode.Generate(stmts);
    }

    /**
     * The body of `gencode`: a new module with an entry function 'main' (no
     * parameters, return type 'I'), the top-level statements generated into
     * it, then the entry's tail. The module returned is the one
     * IrSpec.Gencode describes: the same globals, the same names, and under
     * each name a function with the described value.
     */
    method Generate(stmts: seq<Stmt>) returns (r: Result<IRModule, IrError>)
      requires Valid()
      ensures var spec := IrSpec.Gencode(table, stmts);
              && (r.Ok? <==> spec.Ok?)
              && (r.Err? ==> r.error == spec.error)
              && (r.Ok? ==> r.value.globals == spec.value.globals && r.value.functions.Keys == spec.value.functions.Keys)
              && (r.Ok? ==> forall n | n in r.value.functions :: r.value.functions[n].Rec() == spec.value.functions[n])
    {
      env.ChainAllocated();
      var irModule := new IRModule();
      var func := new IRFunction(irModule, "main", [], [], "I");
      ghost var s0 := Now(func);
      var err := VisitBlock(stmts, func);
      if err.Some? {
        return Err(err.value);
      }
      FinishEntry(stmts, func, s0);
      r := Ok(irModule);
    }

    /** The end of `gencode` once the top level went into 'main': the entry's tail, and the module is the one IrSpec.Gencode describes. */
    method FinishEntry(stmts: seq<Stmt>, func: IRFunction, ghost s0: Snap)
      requires Valid() && BlockEmit(table, stmts).Ok?
      requires func.irModule.Valid() && Grown([func], func.irModule.created)
      requires func.name == "main" && func.parmnames == [] && func.parmtypes == [] && func.returnType == "I"
      requires s0.code == [] && s0.locals == map[] && s0.globals == map[]
      requires Did(BlockEmit(table, stmts).value, s0, Now(func), MadeSince(func, 1))
      modifies func
      ensures var spec := IrSpec.Gencode(table, stmts);
              && spec.Ok? && func.irModule.globals == spec.value.globals && func.irModule.functions.Keys == spec.value.functions.Keys
              && forall n | n in func.irModule.functions :: func.irModule.functions[n].Rec() == spec.value.functions[n]
    {
      assert func.irModule.created[0] == func.irModule.created[..1][0];
      ghost var made := MadeSince(func, 1);
      ghost var s1 := Now(func);
      var tail := EntryTail(func, made);
      GencodeDid(table, stmts, s0, s1, made, tail);
      GenerateAgrees(table, stmts, func.irModule, func, made, FuncRec("main", [], [], "I", s1.locals, s1.code + [tail, RET]));
    }

    ghost predicate Valid()
      reads env, env.children, if env.Linked() then env.Chain() else {}
    {
      env.Linked() && table == Env()
    }

    /** The value view of the table: the chain `get` walks and the direct children's scopes. */
    ghost function Env(): IrEnv
      requires env.Linked()
      reads env.Chain(), env.children
    {
      IrEnv(env.ChainView(), Views(env.children))
    }

    /**
     * `find_scope_of_type_name_child('function', name)`: a scope is found
     * exactly when the name is local, and the scope found binds the name
     * itself to a true value.
     */
    method FindFunctionScope(name: string) returns (scope: Symtab?)
      requires Valid()
      ensures (scope != null) == IsLocal(table, name)
      ensures scope != null ==> scope.Qualifies("function", name)
    {
      scope := env.FindScopeOfTypeNameChild("function", name);
      ghost var kids := Views(env.children);
      if scope == null {
        forall i | 0 <= i < |kids|
          ensures !FunctionScopeBinds(kids[i], name)
        {
          assert kids[i] == env.children[i].View();
        }
      } else if scope != env {
        var i :| 0 <= i < |env.children| && env.children[i] == scope && scope.Qualifies("function", name);
        assert FunctionScopeBinds(kids[i], name);
      }
    }

    /** The store into a name: LOCAL_SET when a function scope is found, else GLOBAL_SET. */
    method StoreInstr(name: string) returns (instr: Instr)
      requires Valid()
      ensures instr == StoreOf(table, name)
    {
      var scope := FindFunctionScope(name);
      if scope != null {
        instr := LOCAL_SET(name);
      } else {
        instr := GLOBAL_SET(name);
      }
    }

    /**
     * The load of a name: LOCAL_GET when a scope is found and `scope.get(name)`
     * is true there. The found scope binds the name itself, so `get` stops at
     * its own entry.
     */
    method LoadInstr(name: string) returns (instr: Instr)
      requires Valid()
      ensures instr == LoadOf(table, name)
    {
      var scope := FindFunctionScope(name);
      if scope != null && name in scope.entries && EntryTruthy(scope.entries[name]) {
        instr := LOCAL_GET(name);
      } else {
        instr := GLOBAL_GET(name);
      }
    }

    /** `_get_expression_type`. */
    method ExpressionType(e: Expr) returns (r: Result<Option<TypeName>, IrError>)
      requires Valid()
      ensures r == ExprType(table, e)
    {
      env.ChainAllocated();
      if HasTypeAttr(e) {
        return Ok(TypeAttr(e));
      }
      match e {
        case BinOp(_, left, right) =>
          var lt := ExpressionType(left);
          if lt.Err? {
            return Err(lt.error);
          }
          var rt := ExpressionType(right);
          if rt.Err? {
            return Err(rt.error);
          }
          if lt.value == rt.value {
            return Ok(lt.value);
          }
          if lt.value == Some("float") || rt.value == Some("float") {
            return Ok(Some("float"));
          }
          return Ok(Some("int"));
        case UnaryOp(_, x) =>
          r := ExpressionType(x);
        case FunctionCall(name, _) =>
          var f := env.Get(name);
          if f.Some? && f.value.FuncEntry? {
            return Ok(f.value.returnType);
          }
          return Err(NoReturnType(name));
        case _ =>
          return Err(NoTypeAttribute);
      }
    }

    /** Visit an expression: append its instructions, operands first. */
    method VisitExpr(e: Expr, func: IRFunction) returns (err: Option<IrError>)
      requires Valid()
      modifies func
      ensures var r := ExprCode(table, e);
              && (err.None? <==> r.Ok?)
              && (err.Some? ==> err.value == r.error)
              && (err.None? ==> func.code == old(func.code) + r.value)
              && func.locals == old(func.locals)
      decreases e, 2
    {
      env.ChainAllocated();
      err := None;
      match e {
        case Integer(v) =>
          func.Append(CONSTI(v));
        case Float(x) =>
          func.Append(CONSTF(x));
        case Char(c) =>
          func.Append(CONSTB(c));
        case Bool(b) =>
          func.Append(CONSTI(if b then 1 else 0));
        case BinOp(_, _, _) =>
          err := VisitBinOp(e, func);
        case UnaryOp(_, _) =>
          err := VisitUnaryOp(e, func);
        case TypeCast(_, _) =>
          err := VisitTypeCast(e, func);
        case FunctionCall(_, _) =>
          err := VisitCall(e, func);
        case NamedLocation(name, _) =>
          var instr := LoadInstr(name);
          func.Append(instr);
      }
    }

    /** Left operand, right operand, then the opcode `_binop_code` gives for the two operand types. */
    method VisitBinOp(e: Expr, func: IRFunction) returns (err: Option<IrError>)
      requires Valid() && e.BinOp?
      modifies func
      ensures var r := ExprCode(table, e);
              && (err.None? <==> r.Ok?)
              && (err.Some? ==> err.value == r.error)
              && (err.None? ==> func.code == old(func.code) + r.value)
              && func.locals == old(func.locals)
      decreases e, 1
    {
      env.ChainAllocated();
      ghost var code0 := func.code;
      err := VisitOperands(e, func);
      if err.Some? {
        BinOpShape(table, e);
        return;
      }
      ghost var code1 := func.code;
      err := VisitOperator(e, func);
      if err.None? {
        ghost var L, R := ExprCode(table, e.left).value, ExprCode(table, e.right).value;
        ghost var c := BinopInstr(table, e.op, e.left, e.right).value;
        BinOpOk(table, e);
        Associate(code0, L, R, c);
      }
    }

    /** The opcode `_binop_code` gives for the operand types, appended. */
    method VisitOperator(e: Expr, func: IRFunction) returns (err: Option<IrError>)
      requires Valid() && e.BinOp?
      modifies func
      ensures var c := BinopInstr(table, e.op, e.left, e.right);
              && (err.None? <==> c.Ok?)
              && (err.Some? ==> err.value == c.error)
              && (err.None? ==> func.code == old(func.code) + [c.value])
              && func.locals == old(func.locals)
    {
      var c := BinopInstrOf(e);
      if c.Err? {
        return Some(c.error);
      }
      func.Append(c.value);
      err := None;
    }

    /** The left operand's code, then the right operand's. */
    method VisitOperands(e: Expr, func: IRFunction) returns (err: Option<IrError>)
      requires Valid() && e.BinOp?
      modifies func
      ensures var L := ExprCode(table, e.left);
              var R := ExprCode(table, e.right);
              && (err.None? <==> L.Ok? && R.Ok?)
              && (err.Some? ==> err.value == if L.Err? then L.error else R.error)
              && (err.None? ==> func.code == old(func.code) + L.value + R.value)
              && func.locals == old(func.locals)
      decreases e, 0
    {
      env.ChainAllocated();
      err := VisitExpr(e.left, func);
      if err.None? {
        err := VisitExpr(e.right, func);
      }
    }

    /** The operand types of a binary operation, then its opcode from `_binop_code`. */
    method BinopInstrOf(e: Expr) returns (c: Result<Instr, IrError>)
      requires Valid() && e.BinOp?
      ensures c == BinopInstr(table, e.op, e.left, e.right)
    {
      env.ChainAllocated();
      var lt := ExpressionType(e.left);
      if lt.Err? {
        return Err(lt.error);
      }
      var rt := ExpressionType(e.right);
      if rt.Err? {
        return Err(rt.error);
      }
      var code := BinopCode(lt.value, e.op, rt.value);
      if code.None? {
        return Err(NoBinopCode(e.op));
      }
      return Ok(code.value);
    }

    /** The operand, then each instruction `_unaryop_code` gives for the operator and the operand's `type`. */
    method VisitUnaryOp(e: Expr, func: IRFunction) returns (err: Option<IrError>)
      requires Valid() && e.UnaryOp?
      modifies func
      ensures var r := ExprCode(table, e);
              && (err.None? <==> r.Ok?)
              && (err.Some? ==> err.value == r.error)
              && (err.None? ==> func.code == old(func.code) + r.value)
              && func.locals == old(func.locals)
      decreases e, 1
    {
      env.ChainAllocated();
      err := VisitExpr(e.operand, func);
      if err.Some? {
        return;
      }
      if !HasTypeAttr(e.operand) {
        return Some(NoTypeAttribute);
      }
      var c := UnaryopCode(e.op, TypeAttr(e.operand));
      if c.None? {
        return Some(NoUnaryCode(e.op));
      }
      ghost var code1 := func.code;
      var k := 0;
      while k < |c.value|
        invariant 0 <= k <= |c.value|
        invariant func.code == code1 + c.value[..k] && func.locals == old(func.locals)
      {
        func.Append(c.value[k]);
        k := k + 1;
      }
      assert c.value[..k] == c.value;
    }

    /** The operand, then ITOF for an int cast to float, FTOI for a float cast to int. */
    method VisitTypeCast(e: Expr, func: IRFunction) returns (err: Option<IrError>)
      requires Valid() && e.TypeCast?
      modifies func
      ensures var r := ExprCode(table, e);
              && (err.None? <==> r.Ok?)
              && (err.Some? ==> err.value == r.error)
              && (err.None? ==> func.code == old(func.code) + r.value)
              && func.locals == old(func.locals)
      decreases e, 1
    {
      env.ChainAllocated();
      var x := e.expression;
      err := VisitExpr(x, func);
      if err.Some? {
        return;
      }
      if e.targetType == "float" {
        if !HasTypeAttr(x) {
          return Some(NoTypeAttribute);
        }
        if TypeAttr(x) == Some("int") {
          func.Append(ITOF);
          return;
        }
      }
      if e.targetType == "int" {
        if !HasTypeAttr(x) {
          return Some(NoTypeAttribute);
        }
        if TypeAttr(x) == Some("float") {
          func.Append(FTOI);
        }
      }
    }

    /** The arguments left to right, then `CALL name`. */
    method VisitCall(e: Expr, func: IRFunction) returns (err: Option<IrError>)
      requires Valid() && e.FunctionCall?
      modifies func
      ensures var r := ExprCode(table, e);
              && (err.None? <==> r.Ok?)
              && (err.Some? ==> err.value == r.error)
              && (err.None? ==> func.code == old(func.code) + r.value)
              && func.locals == old(func.locals)
      decreases e, 1
    {
      ghost var code0 := func.code;
      err := VisitArgs(e, e.arguments, func);
      if err.None? {
        func.Append(CALL(e.name));
        assert func.code == code0 + (ArgsCode(table, e.arguments).value + [CALL(e.name)]);
      }
    }

    /** Each argument's code in turn, stopping at the first that fails. */
    method VisitArgs(ghost e: Expr, args: seq<Expr>, func: IRFunction) returns (err: Option<IrError>)
      requires Valid() && forall a | a in args :: a < e
      modifies func
      ensures var r := ArgsCode(table, args);
              && (err.None? <==> r.Ok?)
              && (err.Some? ==> err.value == r.error)
              && (err.None? ==> func.code == old(func.code) + r.value)
              && func.locals == old(func.locals)
      decreases e, 0
    {
      env.ChainAllocated();
      ghost var whole := ArgsCode(table, args);
      ghost var code0 := func.code;
      ghost var acc: seq<Instr> := [];
      assert args[0..] == args;
      if whole.Ok? {
        assert [] + whole.value == whole.value;
      }
      err := None;
      var i := 0;
      while i < |args|
        invariant 0 <= i <= |args|
        invariant func.code == code0 + acc && func.locals == old(func.locals)
        invariant whole == ArgsAfter(acc, ArgsCode(table, args[i..]))
        invariant err.None?
      {
        assert args[i] in args;
        err := VisitExpr(args[i], func);
        ArgsStep(table, args, i, acc);
        if err.Some? {
          assert whole == Err(err.value);
          return;
        }
        acc := acc + ExprCode(table, args[i]).value;
        i := i + 1;
      }
      assert args[i..] == [];
      assert whole == Ok(acc + []) && acc + [] == acc;
    }

    // ---------------------------------------------------------- statements

    /** Visit a statement: generate it into `func`, creating the functions it declares. */
    method VisitStmt(s: Stmt, func: IRFunction) returns (err: Option<IrError>)
      requires Valid() && func.irModule.Valid() && func.serial < |func.irModule.created|
      modifies func, func.irModule
      ensures func.irModule.Valid() && Grown(old(func.irModule.created), func.irModule.created)
      ensures Generated(StmtEmit(table, s), err, old(Now(func)), Now(func), MadeSince(func, old(|func.irModule.created|)))
      decreases s, 2
    {
      env.ChainAllocated();
      ghost var s0 := Now(func);
      assert s0.created[|s0.created|..] == [];
      match s {
        case Assignment(_, _) =>
          err := VisitAssignment(s, func);
        case Print(_) =>
          err := VisitPrint(s, func);
        case ExprStmt(x) =>
          err := VisitExpr(x, func);
          if err.None? {
            DidCode(ExprCode(table, x).value, s0, Now(func));
          }
        case If(_, _, _) =>
          err := VisitIf(s, func);
        case While(_, _) =>
          err := VisitWhile(s, func);
        case Break =>
          err := None;
          func.Append(CBREAK);
          DidCode([CBREAK], s0, Now(func));
        case Continue =>
          err := None;
          func.Append(CONTINUE);
          DidCode([CONTINUE], s0, Now(func));
        case Return(_) =>
          err := VisitReturn(s, func);
        case Variable(_, _, _, _) =>
          err := VisitVariable(s, func);
        case Function(_, _, _, _) =>
          err := VisitFunction(s, func);
      }
    }

    /** Statements in order into the same function, stopping at the first error. */
    method VisitBlock(stmts: seq<Stmt>, func: IRFunction) returns (err: Option<IrError>)
      requires Valid() && func.irModule.Valid() && func.serial < |func.irModule.created|
      modifies func, func.irModule
      ensures func.irModule.Valid() && Grown(old(func.irModule.created), func.irModule.created)
      ensures Generated(BlockEmit(table, stmts), err, old(Now(func)), Now(func), MadeSince(func, old(|func.irModule.created|)))
      decreases stmts, 2
    {
      env.ChainAllocated();
      ghost var s0 := Now(func);
      ghost var n0 := |s0.created|;
      ghost var whole := BlockEmit(table, stmts);
      ghost var acc := CodeOnly([]);
      BlockBegins(table, stmts, s0);
      err := None;
      var i := 0;
      while i < |stmts|
        invariant 0 <= i <= |stmts|
        invariant Valid() && func.irModule.Valid() && err.None?
        invariant Grown(s0.created, func.irModule.created)
        invariant Did(acc, s0, Now(func), Recs(func.irModule.created[n0..]))
        invariant whole == BlockAfter(acc, BlockEmit(table, stmts[i..]))
      {
        err, acc := VisitBlockNext(stmts, i, func, acc, s0, n0, whole);
        if err.Some? {
          return;
        }
        i := i + 1;
      }
      BlockEnds(table, stmts, whole, acc, s0, Now(func), Recs(func.irModule.created[n0..]));
    }

    /**
     * One statement of a block, on top of `acc`, what the statements before
     * it generated since `s0`: either the block fails with this statement's
     * error, or `acc` grows by what the statement generates.
     */
    method VisitBlockNext(stmts: seq<Stmt>, i: nat, func: IRFunction, ghost acc: Emit, ghost s0: Snap, ghost n0: nat, ghost whole: Result<Emit, IrError>)
      returns (err: Option<IrError>, ghost next: Emit)
      requires Valid() && func.irModule.Valid() && func.serial < n0 == |s0.created|
      requires i < |stmts| && Grown(s0.created, func.irModule.created)
      requires Did(acc, s0, Now(func), Recs(func.irModule.created[n0..]))
      requires whole == BlockAfter(acc, BlockEmit(table, stmts[i..]))
      modifies func, func.irModule
      ensures func.irModule.Valid() && Grown(s0.created, func.irModule.created)
      ensures err.Some? ==> whole == Err(err.value)
      ensures err.None? ==> Did(next, s0, Now(func), Recs(func.irModule.created[n0..]))
      ensures err.None? ==> whole == BlockAfter(next, BlockEmit(table, stmts[i + 1..]))
      decreases stmts, 1
    {
      env.ChainAllocated();
      ghost var si := Now(func);
      ghost var mi := Recs(si.created[n0..]);
      OlderNotIn(func.irModule, func, n0);
      next := acc;
      err := VisitStmt(stmts[i], func);
      GrownTrans(s0.created, si.created, func.irModule.created);
      BlockStep(table, stmts, i, acc);
      if err.None? {
        ghost var h := StmtEmit(table, stmts[i]).value;
        assert Recs(si.created[n0..]) == mi;
        assert func.irModule.created[n0..|si.created|] == si.created[n0..];
        MadeSplit(func, n0, |si.created|);
        DidThen(acc, h, s0, si, Now(func), mi, MadeSince(func, |si.created|));
        next := Then(acc, h);
      }
    }

    /** The value, then the store: LOCAL_SET or GLOBAL_SET for a name, POKEI otherwise. */
    method VisitAssignment(s: Stmt, func: IRFunction) returns (err: Option<IrError>)
      requires Valid() && s.Assignment?
      modifies func
      ensures Generated(StmtEmit(table, s), err, old(Now(func)), Now(func), [])
      decreases s, 0
    {
      env.ChainAllocated();
      ghost var s0 := Now(func);
      err := VisitExpr(s.expr, func);
      if err.Some? {
        return;
      }
      var instr := POKEI;
      if s.loc.NamedLocation? {
        instr := StoreInstr(s.loc.name);
      }
      func.Append(instr);
      DidCode(ExprCode(table, s.expr).value + [instr], s0, Now(func));
    }

    /** The value, then PRINTI, PRINTF or PRINTB by the type `_get_expression_type` finds. */
    method VisitPrint(s: Stmt, func: IRFunction) returns (err: Option<IrError>)
      requires Valid() && s.Print?
      modifies func
      ensures Generated(StmtEmit(table, s), err, old(Now(func)), Now(func), [])
      decreases s, 0
    {
      env.ChainAllocated();
      ghost var s0 := Now(func);
      err := VisitExpr(s.expression, func);
      if err.Some? {
        return;
      }
      var t := ExpressionType(s.expression);
      if t.Err? {
        return Some(t.error);
      }
      func.Append(PrintOp(t.value));
      DidCode(ExprCode(table, s.expression).value + [PrintOp(t.value)], s0, Now(func));
    }

    /** The value, when there is one, then RET. */
    method VisitReturn(s: Stmt, func: IRFunction) returns (err: Option<IrError>)
      requires Valid() && s.Return?
      modifies func
      ensures Generated(StmtEmit(table, s), err, old(Now(func)), Now(func), [])
      decreases s, 0
    {
      env.ChainAllocated();
      ghost var s0 := Now(func);
      ghost var V: seq<Instr> := [];
      err := None;
      if s.value.Some? {
        err := VisitExpr(s.value.value, func);
        if err.Some? {
          return;
        }
        V := ExprCode(table, s.value.value).value;
      }
      func.Append(RET);
      DidCode(V + [RET], s0, Now(func));
    }

    /** The test, IF, then the rest of the `if`. */
    method VisitIf(s: Stmt, func: IRFunction) returns (err: Option<IrError>)
      requires Valid() && func.irModule.Valid() && func.serial < |func.irModule.created| && s.If?
      modifies func, func.irModule
      ensures func.irModule.Valid() && Grown(old(func.irModule.created), func.irModule.created)
      ensures Generated(StmtEmit(table, s), err, old(Now(func)), Now(func), MadeSince(func, old(|func.irModule.created|)))
      decreases s, 1
    {
      env.ChainAllocated();
      ghost var s0 := Now(func);
      IfSplit(table, s);
      err := VisitExpr(s.test, func);
      if err.Some? {
        return;
      }
      func.Append(IF);
      ghost var s1 := Now(func);
      DidCode(ExprCode(table, s.test).value + [IF], s0, s1);
      err := VisitIfRest(s, func);
      if err.Some? {
        return;
      }
      ghost var m := MadeSince(func, |s0.created|);
      DidThen(CodeOnly(ExprCode(table, s.test).value + [IF]), IfRest(table, s).value, s0, s1, Now(func), [], m);
      assert [] + m == m;
    }

    /** The consequence, ELSE, then the alternative and ENDIF. */
    method VisitIfRest(s: Stmt, func: IRFunction) returns (err: Option<IrError>)
      requires Valid() && func.irModule.Valid() && func.serial < |func.irModule.created| && s.If?
      modifies func, func.irModule
      ensures func.irModule.Valid() && Grown(old(func.irModule.created), func.irModule.created)
      ensures Generated(IfRest(table, s), err, old(Now(func)), Now(func), MadeSince(func, old(|func.irModule.created|)))
      decreases s, 0
    {
      env.ChainAllocated();
      ghost var s0 := Now(func);
      ghost var n0 := |s0.created|;
      IfRestFails(table, s);
      err := VisitBlock(s.consequence, func);
      if err.Some? {
        return;
      }
      err := VisitElsePart(s, func, s0);
    }

    /** After the consequence `s0` on: ELSE, then the alternative and ENDIF. */
    method VisitElsePart(s: Stmt, func: IRFunction, ghost s0: Snap) returns (err: Option<IrError>)
      requires Valid() && func.irModule.Valid() && s.If? && BlockEmit(table, s.consequence).Ok?
      requires func.serial < |s0.created| && Grown(s0.created, func.irModule.created)
      requires Did(BlockEmit(table, s.consequence).value, s0, Now(func), MadeSince(func, |s0.created|))
      modifies func, func.irModule
      ensures func.irModule.Valid() && Grown(s0.created, func.irModule.created)
      ensures Generated(IfRest(table, s), err, s0, Now(func), MadeSince(func, |s0.created|))
      decreases s.alternative, 2
    {
      env.ChainAllocated();
      ghost var n0 := |s0.created|;
      IfRestFails(table, s);
      ghost var s1 := Now(func);
      ghost var mC := Recs(s1.created[n0..]);
      AppendKeeping(func, ELSE, n0, n0);
      ghost var s2 := Now(func);
      err := VisitElse(s.alternative, func, n0);
      GrownTrans(s0.created, s2.created, func.irModule.created);
      if err.Some? {
        return;
      }
      MadeSplit(func, n0, |s2.created|);
      IfRestDid(table, s, s0, s1, s2, Now(func), mC, MadeSince(func, |s2.created|));
    }

    /**
     * The end of an `if`: its alternative, then ENDIF. The functions created
     * since the first `n` before it keep their values.
     */
    method VisitElse(alt: Alternative, func: IRFunction, ghost n: nat) returns (err: Option<IrError>)
      requires Valid() && func.irModule.Valid() && func.serial < n <= |func.irModule.created|
      modifies func, func.irModule
      ensures func.irModule.Valid() && Grown(old(func.irModule.created), func.irModule.created)
      ensures Generated(ElseCode(table, alt), err, old(Now(func)), Now(func), MadeSince(func, old(|func.irModule.created|)))
      ensures Recs(func.irModule.created[n..old(|func.irModule.created|)]) == old(Recs(func.irModule.created[n..]))
      decreases alt, 1
    {
      ghost var s0 := Now(func);
      ghost var c0 := func.irModule.created;
      err := VisitAlternative(alt, func, n);
      if err.Some? {
        return;
      }
      ghost var s1 := Now(func);
      ghost var m := MadeSince(func, |c0|);
      AppendKeeping(func, ENDIF, n, |c0|);
      DidCode([ENDIF], s1, Now(func));
      DidThen(AltCode(table, alt).value, CodeOnly([ENDIF]), s0, s1, Now(func), m, []);
      assert m + [] == m;
    }

    /**
     * An `if`'s alternative: its statements when it is a non-empty `else`,
     * else nothing. The functions created since the first `n` before it keep
     * their values.
     */
    method VisitAlternative(alt: Alternative, func: IRFunction, ghost n: nat) returns (err: Option<IrError>)
      requires Valid() && func.irModule.Valid() && func.serial < n <= |func.irModule.created|
      modifies func, func.irModule
      ensures func.irModule.Valid() && Grown(old(func.irModule.created), func.irModule.created)
      ensures Generated(AltCode(table, alt), err, old(Now(func)), Now(func), MadeSince(func, old(|func.irModule.created|)))
      ensures Recs(func.irModule.created[n..old(|func.irModule.created|)]) == old(Recs(func.irModule.created[n..]))
      decreases alt, 0
    {
      ghost var c0 := func.irModule.created;
      OlderNotIn(func.irModule, func, n);
      if alt.Else? && |alt.stmts| > 0 {
        err := VisitBlock(alt.stmts, func);
        assert func.irModule.created[n..|c0|] == c0[n..];
      } else {
        err := None;
        ghost var s0 := Now(func);
        assert s0 == s0.(code := s0.code + []);
        DidCode([], s0, s0);
        assert c0[|c0|..] == [] && c0[n..|c0|] == c0[n..];
      }
    }

    /** LOOP, CONSTI 1, the test, SUBI, CBREAK, then the rest of the `while`. */
    method VisitWhile(s: Stmt, func: IRFunction) returns (err: Option<IrError>)
      requires Valid() && func.irModule.Valid() && func.serial < |func.irModule.created| && s.While?
      modifies func, func.irModule
      ensures func.irModule.Valid() && Grown(old(func.irModule.created), func.irModule.created)
      ensures Generated(StmtEmit(table, s), err, old(Now(func)), Now(func), MadeSince(func, old(|func.irModule.created|)))
      decreases s, 1
    {
      env.ChainAllocated();
      ghost var s0 := Now(func);
      WhileSplit(table, s);
      err := VisitLoopHead(s.test, func);
      if err.Some? {
        return;
      }
      ghost var head := [LOOP, CONSTI(1)] + ExprCode(table, s.test).value + [SUBI, CBREAK];
      ghost var s1 := Now(func);
      DidCode(head, s0, s1);
      err := VisitWhileRest(s, func);
      if err.Some? {
        return;
      }
      ghost var m := MadeSince(func, |s0.created|);
      DidThen(CodeOnly(head), WhileRest(table, s).value, s0, s1, Now(func), [], m);
      assert [] + m == m;
    }

    /** The head of a `while`: LOOP, CONSTI 1, the test, SUBI, CBREAK. */
    method VisitLoopHead(test: Expr, func: IRFunction) returns (err: Option<IrError>)
      requires Valid()
      modifies func
      ensures var r := ExprCode(table, test);
              && (err.None? <==> r.Ok?)
              && (err.Some? ==> err.value == r.error)
              && (err.None? ==> func.code == old(func.code) + ([LOOP, CONSTI(1)] + r.value + [SUBI, CBREAK]))
              && func.locals == old(func.locals)
      decreases test, 3
    {
      env.ChainAllocated();
      ghost var code0 := func.code;
      func.Append(LOOP);
      func.Append(CONSTI(1));
      err := VisitExpr(test, func);
      if err.Some? {
        return;
      }
      func.Append(SUBI);
      func.Append(CBREAK);
      HeadJoin(code0, ExprCode(table, test).value);
    }

    /** The body of a `while`, then ENDLOOP (which does not jump back). */
    method VisitWhileRest(s: Stmt, func: IRFunction) returns (err: Option<IrError>)
      requires Valid() && func.irModule.Valid() && func.serial < |func.irModule.created| && s.While?
      modifies func, func.irModule
      ensures func.irModule.Valid() && Grown(old(func.irModule.created), func.irModule.created)
      ensures Generated(WhileRest(table, s), err, old(Now(func)), Now(func), MadeSince(func, old(|func.irModule.created|)))
      decreases s, 0
    {
      ghost var s0 := Now(func);
      ghost var n0 := |s0.created|;
      err := VisitBlock(s.body, func);
      if err.Some? {
        return;
      }
      ghost var s1 := Now(func);
      ghost var m := Recs(s1.created[n0..]);
      AppendKeeping(func, ENDLOOP, n0, n0);
      DidCode([ENDLOOP], s1, Now(func));
      DidThen(BlockEmit(table, s.body).value, CodeOnly([ENDLOOP]), s0, s1, Now(func), m, []);
      assert m + [] == m;
    }

    /**
     * A declaration with an initial value: the value, then LOCAL_SET and a
     * new local when a function scope binds the name, else GLOBAL_SET and a
     * module global, each with the IR type `_typemap` gives.
     */
    method VisitVariable(s: Stmt, func: IRFunction) returns (err: Option<IrError>)
      requires Valid() && func.irModule.Valid() && s.Variable?
      modifies func, func.irModule
      ensures func.irModule.Valid() && func.irModule.created == old(func.irModule.created)
      ensures Generated(StmtEmit(table, s), err, old(Now(func)), Now(func), [])
      decreases s, 0
    {
      env.ChainAllocated();
      ghost var s0 := Now(func);
      err := None;
      if s.init.None? {
        assert s0 == s0.(code := s0.code + []);
        DidCode([], s0, s0);
        return;
      }
      err := VisitExpr(s.init.value, func);
      if err.Some? {
        return;
      }
      var scope := FindFunctionScope(s.name);
      if scope != null {
        func.Append(LOCAL_SET(s.name));
        var ty := TypeMap(s.varType);
        if ty.Err? {
          return Some(ty.error);
        }
        func.NewLocal(s.name, ty.value);
        AppendAssoc(s0.code, ExprCode(table, s.init.value).value, [LOCAL_SET(s.name)]);
        assert Apply(s0.locals, [Decl(s.name, ty.value)]) == s0.locals[s.name := ty.value];
      } else {
        func.Append(GLOBAL_SET(s.name));
        var ty := TypeMap(s.varType);
        if ty.Err? {
          return Some(ty.error);
        }
        func.irModule.globals := func.irModule.globals[s.name := ty.value];
        AppendAssoc(s0.code, ExprCode(table, s.init.value).value, [GLOBAL_SET(s.name)]);
        assert Apply(s0.globals, [Decl(s.name, ty.value)]) == s0.globals[s.name := ty.value];
      }
    }

    /**
     * A function declaration: a new `IRFunction` with the parameters' names,
     * their IR types and the IR return type, registered in the module, and
     * its body generated into it. Nothing is appended to `func`.
     */
    method VisitFunction(s: Stmt, func: IRFunction) returns (err: Option<IrError>)
      requires Valid() && func.irModule.Valid() && func.serial < |func.irModule.created| && s.Function?
      modifies func, func.irModule
      ensures func.irModule.Valid() && Grown(old(func.irModule.created), func.irModule.created)
      ensures Generated(StmtEmit(table, s), err, old(Now(func)), Now(func), MadeSince(func, old(|func.irModule.created|)))
      decreases s, 1
    {
      env.ChainAllocated();
      ghost var s0 := Now(func);
      FunctionFails(table, s);
      var names := ParamNames(s.parameters);
      var types := ParamTypes(s.parameters);
      if types.Err? {
        return Some(types.error);
      }
      var rt := TypeMap(s.returnType);
      if rt.Err? {
        return Some(rt.error);
      }
      var newFunc := new IRFunction(func.irModule, s.name, names, types.value, rt.value);
      err := VisitFunctionBody(s, func, newFunc, s0);
    }

    /**
     * The rest of a declaration once its new function `newFunc` exists: the
     * body goes into `newFunc`, and the function being generated (`func`)
     * gains nothing but the new function and the globals.
     */
    method VisitFunctionBody(s: Stmt, func: IRFunction, newFunc: IRFunction, ghost s0: Snap) returns (err: Option<IrError>)
      requires Valid() && s.Function? && ParamTypes(s.parameters).Ok? && TypeMap(s.returnType).Ok?
      requires newFunc.irModule == func.irModule && func.irModule.Valid() && func.serial < |s0.created|
      requires func.irModule.created == s0.created + [newFunc] && newFunc.serial == |s0.created|
      requires newFunc.code == [] && newFunc.locals == map[] && func.irModule.globals == s0.globals
      requires func.code == s0.code && func.locals == s0.locals
      requires newFunc.name == s.name && newFunc.parmnames == ParamNames(s.parameters)
      requires newFunc.parmtypes == ParamTypes(s.parameters).value && newFunc.returnType == TypeMap(s.returnType).value
      modifies newFunc, func.irModule
      ensures func.irModule.Valid() && Grown(s0.created, func.irModule.created)
      ensures Generated(StmtEmit(table, s), err, s0, Now(func), MadeSince(func, |s0.created|))
      decreases s, 0
    {
      ghost var s1 := Now(newFunc);
      err := VisitBlock(s.body, newFunc);
      GrownTrans(s0.created, s1.created, func.irModule.created);
      if err.Some? {
        FunctionFails(table, s);
        return;
      }
      FunctionBodyDid(table, s, func, newFunc, s0, s1);
    }
  }
}
