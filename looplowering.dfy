/**
 * How the stack machine runs the code the IR generator emits for `while`.
 * The lowering pushes 1, evaluates the test and subtracts, so CBREAK sees
 * `1 - test`: it leaves the loop when the test is true (1) and enters the
 * body when the test is false (0). ENDLOOP does nothing, so after the body
 * control falls out of the loop instead of returning to its LOOP.
 */
module LoopLowering {
  import opened Wrappers
  import opened Ast
  import opened Opcodes
  import opened VmSpec
  import opened Nesting
  import opened IrSpec
  import opened IrProps
  import opened VmProps

  /** The program holds `code` from index `p` on. */
  predicate Holds(prog: seq<Instr>, p: nat, code: seq<Instr>) {
    p + |code| <= |prog| && prog[p .. p + |code|] == code
  }

  /** The pieces of a lowered `while`: the test's code and the body's code. */
  lemma WhileShape(env: IrEnv, test: Expr, body: seq<Stmt>)
    requires StmtEmit(env, While(test, body)).Ok?
    ensures var T := ExprCode(env, test).value;
            var B := BlockEmit(env, body).value;
            StmtEmit(env, While(test, body)).value.code == [LOOP, CONSTI(1)] + T + [SUBI, CBREAK] + B.code + [ENDLOOP]
    ensures Balanced(SkipToEndloop, BlockEmit(env, body).value.code)
  {
    BlockEmitWellNested(env, body);
  }

  /** A program holding `b + [ENDLOOP]` holds `b`, then ENDLOOP right after it. */
  lemma HoldsSplit(prog: seq<Instr>, p: nat, b: seq<Instr>)
    requires Holds(prog, p, b + [ENDLOOP])
    ensures prog[p .. p + |b|] == b && prog[p + |b|] == ENDLOOP
  {
    assert prog[p .. p + |b|] == (b + [ENDLOOP])[..|b|];
    assert prog[p + |b|] == (b + [ENDLOOP])[|b|];
  }

  /** The branch CBREAK takes on an integer `w` ahead of the balanced code `b` and its ENDLOOP. */
  lemma CBreakBranch(m: Machine, s: seq<Value>, w: int, b: seq<Instr>)
    requires 0 <= m.pc < |m.program|
    requires m.stack == s + [IntValue(w)]
    requires Holds(m.program, m.pc + 1, b + [ENDLOOP]) && Balanced(SkipToEndloop, b)
    ensures ExecBranch(m, SkipToEndloop) == Next(m.(stack := s, pc := if w != 0 then m.pc else m.pc + |b| + 1))
  {
    assert DropLast(m.stack) == s;
    if w == 0 {
      HoldsSplit(m.program, m.pc + 1, b);
      CBreakFindsEndloop(m.program, m.pc, b);
    }
  }

  /** A step at CBREAK is the branch it takes, then the pc advance. */
  lemma CBreakDispatch(m: Machine, m1: Machine)
    requires 0 <= m.pc < |m.program| && m.program[m.pc] == CBREAK
    requires ExecBranch(m, SkipToEndloop) == Next(m1)
    ensures Step(m) == Next(m1.(pc := m1.pc + 1))
  {
    assert Exec(m, CBREAK) == ExecBranch(m, SkipToEndloop);
  }

  /** CBREAK on an integer `w`: falls through when `w` is nonzero, else jumps past the ENDLOOP closing the code `b` that follows it, balanced. */
  lemma CBreakStep(m: Machine, s: seq<Value>, w: int, b: seq<Instr>)
    requires 0 <= m.pc < |m.program| && m.program[m.pc] == CBREAK
    requires m.stack == s + [IntValue(w)]
    requires Holds(m.program, m.pc + 1, b + [ENDLOOP]) && Balanced(SkipToEndloop, b)
    ensures Step(m) == Next(m.(stack := s, pc := if w != 0 then m.pc + 1 else m.pc + |b| + 2))
  {
    CBreakBranch(m, s, w, b);
    CBreakDispatch(m, m.(stack := s, pc := if w != 0 then m.pc else m.pc + |b| + 1));
  }

  /** Where SUBI, CBREAK and the body sit in a lowered loop held at `p`. */
  lemma LoopTail(prog: seq<Instr>, p: nat, t: seq<Instr>, b: seq<Instr>)
    requires Holds(prog, p, [LOOP, CONSTI(1)] + t + [SUBI, CBREAK] + b + [ENDLOOP])
    ensures prog[p + 2 + |t|] == SUBI && prog[p + 3 + |t|] == CBREAK
    ensures Holds(prog, p + 4 + |t|, b + [ENDLOOP])
  {
    var code := [LOOP, CONSTI(1)] + t + [SUBI, CBREAK] + b + [ENDLOOP];
    assert prog[p + 2 + |t|] == code[2 + |t|];
    assert prog[p + 3 + |t|] == code[3 + |t|];
    assert prog[p + 4 + |t| .. p + |code|] == code[4 + |t| ..] == b + [ENDLOOP];
  }

  /**
   * The run of `[LOOP, CONSTI 1] + t + [SUBI, CBREAK] + b + [ENDLOOP]` once
   * `t` has pushed the test value `v`: SUBI leaves `1 - v`, and CBREAK then
   * leaves the loop when `v` is 1 and enters `b` otherwise.
   */
  lemma LoweredLoopBranch(m: Machine, p: nat, t: seq<Instr>, b: seq<Instr>, s: seq<Value>, v: int)
    requires Holds(m.program, p, [LOOP, CONSTI(1)] + t + [SUBI, CBREAK] + b + [ENDLOOP])
    requires Balanced(SkipToEndloop, b)
    requires m.pc == p + 2 + |t| && m.stack == s + [IntValue(1), IntValue(v)]
    ensures At(m, SUBI) && Step(m).Next? && At(Step(m).m, CBREAK) && Step(Step(m).m).Next?
    ensures Step(Step(m).m).m.stack == s
    ensures Step(Step(m).m).m.pc == if v == 1 then p + |t| + |b| + 5 else m.pc + 2
  {
    LoopTail(m.program, p, t, b);
    IntBinaryPops(m, SUBI, s, 1, v);
    var m1 := Step(m).m;
    assert m1 == m.(stack := s + [IntValue(1 - v)], pc := m.pc + 1);
    CBreakStep(m1, s, 1 - v, b);
  }

  /**
   * Once the test's code has pushed its value `v` on top of the 1, the
   * next two instructions (SUBI, CBREAK) pop both and jump just past the
   * loop's ENDLOOP when `v` is 1, and continue into the body otherwise: the
   * generated loop exits exactly when its test is true.
   */
  lemma WhileExitsWhenTestHolds(env: IrEnv, test: Expr, body: seq<Stmt>, m: Machine, p: nat, s: seq<Value>, v: int)
    requires StmtEmit(env, While(test, body)).Ok?
    requires Holds(m.program, p, StmtEmit(env, While(test, body)).value.code)
    requires m.pc == p + 2 + |ExprCode(env, test).value|
    requires m.stack == s + [IntValue(1), IntValue(v)]
    ensures At(m, SUBI) && Step(m).Next? && At(Step(m).m, CBREAK) && Step(Step(m).m).Next?
    ensures var after := Step(Step(m).m).m;
            var code := StmtEmit(env, While(test, body)).value.code;
            && after.stack == s
            && after.pc == (if v == 1 then p + |code| else m.pc + 2)
  {
    WhileShape(env, test, body);
    var t := ExprCode(env, test).value;
    var b := BlockEmit(env, body).value.code;
    LoweredLoopBranch(m, p, t, b, s, v);
  }

  /** A generated while ends with ENDLOOP. */
  lemma WhileEndsWithEndloop(env: IrEnv, test: Expr, body: seq<Stmt>)
    requires StmtEmit(env, While(test, body)).Ok?
    ensures var code := StmtEmit(env, While(test, body)).value.code;
            |code| > 0 && code[|code| - 1] == ENDLOOP
  {
    WhileShape(env, test, body);
  }

  /** ENDLOOP at the end of a generated loop passes control to the instruction after the loop, never back to its LOOP. */
  lemma WhileEndFallsThrough(env: IrEnv, test: Expr, body: seq<Stmt>, m: Machine, p: nat)
    requires StmtEmit(env, While(test, body)).Ok?
    requires Holds(m.program, p, StmtEmit(env, While(test, body)).value.code)
    requires m.pc == p + |StmtEmit(env, While(test, body)).value.code| - 1
    ensures Step(m) == Next(m.(pc := p + |StmtEmit(env, While(test, body)).value.code|))
  {
    var code := StmtEmit(env, While(test, body)).value.code;
    WhileEndsWithEndloop(env, test, body);
    assert m.program[m.pc] == code[|code| - 1];
    assert Exec(m, ENDLOOP) == Next(m);
  }
}
