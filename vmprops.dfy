/**
 * Properties of the stack machine's meaning (module VmSpec): operand
 * discipline, the zero-divisor fault, parameter binding order, the call
 * frame discipline, the integer-tag invariant, and where the depth-counting
 * scans land in well-nested code.
 */
module VmProps {
  import opened Wrappers
  import opened Opcodes
  import opened VmSpec

  /** A machine poised to run `instr` (the fetch of the run loop). */
  predicate At(m: Machine, instr: Instr) {
    0 <= m.pc < |m.program| && m.program[m.pc] == instr
  }

  /** An integer binary opcode pops b, then a, and pushes ('int', a op b) when both are integers. */
  lemma IntBinaryPops(m: Machine, instr: Instr, s: seq<Value>, a: int, b: int)
    requires 0 <= m.pc < |m.program| && instr.IsIntBinary()
    requires m.stack == s + [IntValue(a), IntValue(b)]
    requires (instr.DIVI? || instr.MODI?) ==> b != 0
    ensures Exec(m, instr) == Next(m.(stack := s + [IntValue(IntResult(instr, a, b))]))
  {
    assert DropLast(m.stack) == s + [IntValue(a)];
    assert DropLast(s + [IntValue(a)]) == s;
  }

  /** Comparisons push exactly 1 or 0. */
  lemma ComparisonsPushBooleans(instr: Instr, a: int, b: int)
    requires instr.LTI? || instr.LEI? || instr.GTI? || instr.GEI? || instr.EQI? || instr.NEI?
    ensures IntResult(instr, a, b) == 0 || IntResult(instr, a, b) == 1
  {
  }

  /** An operand not tagged 'int' makes every integer binary opcode fail after both pops. */
  lemma IntBinaryRejectsOtherTags(m: Machine, instr: Instr, s: seq<Value>, a: Value, b: Value)
    requires 0 <= m.pc < |m.program| && instr.IsIntBinary()
    requires m.stack == s + [a, b]
    requires a.tag != "int" || b.tag != "int"
    ensures Exec(m, instr) == Stop(NotAnInteger, m.(stack := s))
  {
    assert DropLast(m.stack) == s + [a];
    assert DropLast(s + [a]) == s;
  }

  /** Division or modulo by zero faults after popping both operands and pushes nothing. */
  lemma DivisionByZeroPushesNothing(m: Machine, instr: Instr, s: seq<Value>, a: int)
    requires 0 <= m.pc < |m.program| && (instr.DIVI? || instr.MODI?)
    requires m.stack == s + [IntValue(a), IntValue(0)]
    ensures Exec(m, instr) == Stop(DivisionByZero, m.(stack := s))
  {
    assert DropLast(m.stack) == s + [IntValue(a)];
    assert DropLast(s + [IntValue(a)]) == s;
  }

  // ------------------------------------------------------------ calls

  predicate Distinct(names: seq<string>) {
    forall i, j :: 0 <= i < j < |names| ==> names[i] != names[j]
  }

  /**
   * Popping in reverse parameter order binds arguments pushed left to right:
   * the i-th parameter receives the i-th argument, and only the arguments are
   * consumed.
   */
  lemma {:induction false} BindParamsInOrder(s: seq<Value>, args: seq<Value>, names: seq<string>, locals: map<string, Value>)
    requires |args| == |names| && Distinct(names)
    ensures BindParams(s + args, names, locals).Bound?
    ensures BindParams(s + args, names, locals).stack == s
    ensures forall i :: 0 <= i < |names| ==>
              names[i] in BindParams(s + args, names, locals).locals &&
              BindParams(s + args, names, locals).locals[names[i]] == args[i]
    ensures forall k :: k !in names ==>
              (k in BindParams(s + args, names, locals).locals <==> k in locals) &&
              (k in locals ==> BindParams(s + args, names, locals).locals[k] == locals[k])
    decreases |names|
  {
    if |names| > 0 {
      var n := |names| - 1;
      assert DropLast(s + args) == s + DropLast(args);
      assert Last(s + args) == args[n];
      var locals' := locals[names[n] := args[n]];
      BindParamsInOrder(s, DropLast(args), DropLast(names), locals');
      var r := BindParams(s + args, names, locals);
      assert r == BindParams(s + DropLast(args), DropLast(names), locals');
      forall i | 0 <= i < |names|
        ensures names[i] in r.locals && r.locals[names[i]] == args[i]
      {
        if i == n {
          assert names[n] !in DropLast(names);
        } else {
          assert DropLast(names)[i] == names[i];
        }
      }
      forall k | k !in names
        ensures (k in r.locals <==> k in locals) && (k in locals ==> r.locals[k] == locals[k])
      {
        assert k !in DropLast(names);
      }
    } else {
      assert s + args == s;
    }
  }

  /** CALL with the arguments on top of the stack enters the callee with each parameter bound to its argument. */
  lemma CallBindsLeftToRight(m: Machine, name: string, s: seq<Value>, args: seq<Value>)
    requires At(m, CALL(name)) && name in m.functions && name in m.functionParams
    requires |args| == |m.functionParams[name]| && Distinct(m.functionParams[name])
    requires m.stack == s + args
    ensures Step(m).Next?
    ensures Step(m).m.pc == 0 && Step(m).m.program == m.functions[name] && Step(m).m.stack == s
    ensures Step(m).m.callStack == m.callStack + [Frame(m.pc, m.program)]
    ensures |Step(m).m.localsStack| == |m.localsStack| + 1
    ensures forall i :: 0 <= i < |args| ==>
              var params := m.functionParams[name];
              params[i] in Last(Step(m).m.localsStack) && Last(Step(m).m.localsStack)[params[i]] == args[i]
  {
    BindParamsInOrder(s, args, m.functionParams[name], map[]);
  }

  /** RET inside a call returns just past the CALL, drops the callee's locals and leaves the operand stack alone. */
  lemma RetReturnsToCaller(m: Machine)
    requires At(m, RET) && |m.callStack| > 0 && |m.localsStack| > 0
    ensures Step(m).Next?
    ensures Step(m).m.pc == Last(m.callStack).pc + 1 && Step(m).m.program == Last(m.callStack).program
    ensures Step(m).m.stack == m.stack && Step(m).m.callStack == DropLast(m.callStack)
    ensures Step(m).m.localsStack == DropLast(m.localsStack)
  {
  }

  /** A CALL followed, in the callee, by a RET restores the caller's program and call depth. */
  lemma CallThenRetRestores(m: Machine, name: string)
    requires At(m, CALL(name)) && name in m.functions && ParamsOf(m, name) == []
    requires |m.functions[name]| > 0 && m.functions[name][0] == RET
    ensures Step(m).Next? && At(Step(m).m, RET)
    ensures var m2 := Step(Step(m).m);
            m2.Next? && m2.m.pc == m.pc + 1 && m2.m.program == m.program &&
            m2.m.callStack == m.callStack && m2.m.localsStack == m.localsStack && m2.m.stack == m.stack
  {
    var m1 := Step(m).m;
    assert m1.callStack == m.callStack + [Frame(m.pc, m.program)];
    assert m1.localsStack == m.localsStack + [map[]];
    assert DropLast(m1.callStack) == m.callStack;
    assert DropLast(m1.localsStack) == m.localsStack;
  }

  /** The outermost RET stops the run loop. */
  lemma OutermostRetStops(m: Machine, fuel: nat)
    requires m.running && At(m, RET) && |m.callStack| == 0 && fuel > 0
    ensures RunLoop(m, fuel) == Finished(m.(running := false, pc := m.pc + 1))
  {
  }

  // ------------------------------------------------------------ tags

  /** Every value the machine holds is tagged 'int'. */
  predicate AllInt(m: Machine) {
    && (forall i :: 0 <= i < |m.stack| ==> m.stack[i].tag == "int")
    && (forall k :: k in m.globals ==> m.globals[k].tag == "int")
    && (forall j, k :: 0 <= j < |m.localsStack| && k in m.localsStack[j] ==> m.localsStack[j][k].tag == "int")
  }

  lemma {:induction false} BindParamsKeepsTags(stack: seq<Value>, names: seq<string>, locals: map<string, Value>)
    requires forall i :: 0 <= i < |stack| ==> stack[i].tag == "int"
    requires forall k :: k in locals ==> locals[k].tag == "int"
    ensures forall i :: 0 <= i < |BindParams(stack, names, locals).stack| ==>
              BindParams(stack, names, locals).stack[i].tag == "int"
    ensures BindParams(stack, names, locals).Bound? ==>
              forall k :: k in BindParams(stack, names, locals).locals ==>
                BindParams(stack, names, locals).locals[k].tag == "int"
    decreases |names|
  {
    if |names| > 0 && |stack| > 0 {
      BindParamsKeepsTags(DropLast(stack), DropLast(names), locals[Last(names) := Last(stack)]);
    } else if |names| > 0 {
      assert BindParams(stack, names, locals).stack == stack;
    }
  }

  /** The result of a handler keeps every value tagged 'int' and is not a NotAnInteger fault. */
  predicate KeepsIntegers(r: Outcome) {
    (r.Next? ==> AllInt(r.m)) && !(r.Stop? && r.fault == NotAnInteger)
  }

  lemma IntBinaryKeepsIntegers(m: Machine, instr: Instr)
    requires instr.IsIntBinary() && AllInt(m)
    ensures KeepsIntegers(ExecIntBinary(m, instr))
  {
    if |m.stack| >= 2 {
      assert m.stack[|m.stack| - 1].tag == "int" && m.stack[|m.stack| - 2].tag == "int";
    }
  }

  lemma PrintKeepsIntegers(m: Machine, instr: Instr)
    requires (instr.PRINTI? || instr.PRINTB?) && AllInt(m)
    ensures KeepsIntegers(ExecPrint(m, instr))
  {
    if |m.stack| > 0 {
      assert m.stack[|m.stack| - 1].tag == "int";
    }
  }

  lemma BranchKeepsIntegers(m: Machine, kind: ScanKind)
    requires 0 <= m.pc < |m.program| && kind != SkipToEndif && AllInt(m)
    ensures KeepsIntegers(ExecBranch(m, kind))
  {
    if |m.stack| > 0 {
      assert m.stack[|m.stack| - 1].tag == "int";
    }
  }

  lemma VariableKeepsIntegers(m: Machine, instr: Instr)
    requires (instr.LOCAL_GET? || instr.LOCAL_SET? || instr.GLOBAL_GET? || instr.GLOBAL_SET?) && AllInt(m)
    ensures KeepsIntegers(ExecVariable(m, instr))
  {
    if instr.LOCAL_GET? && |m.localsStack| > 0 {
      assert Last(m.localsStack) == m.localsStack[|m.localsStack| - 1];
    } else if instr.LOCAL_SET? && |m.localsStack| > 0 && |m.stack| > 0 {
      var top := Last(m.localsStack);
      var ls: seq<map<string, Value>> := DropLast(m.localsStack) + [top[instr.name := Last(m.stack)]];
      forall j, k | 0 <= j < |ls| && k in ls[j]
        ensures ls[j][k].tag == "int"
      {
        if j < |m.localsStack| - 1 {
          assert ls[j] == m.localsStack[j];
        }
      }
    }
  }

  lemma CallKeepsIntegers(m: Machine, name: string)
    requires m.pc >= 0 && AllInt(m)
    ensures KeepsIntegers(ExecCall(m, name))
  {
    if name in m.functions {
      BindParamsKeepsTags(m.stack, ParamsOf(m, name), map[]);
      var b := BindParams(m.stack, ParamsOf(m, name), map[]);
      if b.Bound? {
        var ls: seq<map<string, Value>> := m.localsStack + [b.locals];
        forall j, k | 0 <= j < |ls| && k in ls[j]
          ensures ls[j][k].tag == "int"
        {
          if j < |m.localsStack| {
            assert ls[j] == m.localsStack[j];
          } else {
            assert ls[j] == b.locals;
          }
        }
        assert forall i :: 0 <= i < |b.stack| ==> b.stack[i].tag == "int";
      }
    }
  }

  lemma RetKeepsIntegers(m: Machine)
    requires m.pc >= 0 && AllInt(m)
    ensures KeepsIntegers(ExecRet(m))
  {
    if |m.callStack| > 0 && |m.localsStack| > 0 {
      var ls := DropLast(m.localsStack);
      assert forall j :: 0 <= j < |ls| ==> ls[j] == m.localsStack[j];
    }
  }

  /**
   * Every value pushed is tagged 'int' (CONSTI is the only constant the
   * machine executes), so the tag checks of the handlers never fire: a step
   * keeps the invariant and never faults with NotAnInteger.
   */
  lemma StepKeepsIntegers(m: Machine)
    requires 0 <= m.pc < |m.program| && AllInt(m)
    ensures Step(m).Next? ==> AllInt(Step(m).m)
    ensures !(Step(m).Stop? && Step(m).fault == NotAnInteger)
  {
    var instr := m.program[m.pc];
    if instr.CONSTI? {
      assert KeepsIntegers(Exec(m, instr));
    } else if instr.IsIntBinary() {
      IntBinaryKeepsIntegers(m, instr);
    } else if instr.PRINTI? || instr.PRINTB? {
      PrintKeepsIntegers(m, instr);
    } else if instr.IF? {
      BranchKeepsIntegers(m, SkipToElse);
    } else if instr.CBREAK? {
      BranchKeepsIntegers(m, SkipToEndloop);
    } else if instr.LOCAL_GET? || instr.LOCAL_SET? || instr.GLOBAL_GET? || instr.GLOBAL_SET? {
      VariableKeepsIntegers(m, instr);
    } else if instr.CALL? {
      CallKeepsIntegers(m, instr.name);
    } else if instr.RET? {
      RetKeepsIntegers(m);
    }
    assert KeepsIntegers(Exec(m, instr));
  }

  // ------------------------------------------------------------ runs

  /** Extra fuel never changes a run that already ended. */
  lemma {:induction false} RunLoopMonotone(m: Machine, fuel: nat, more: nat)
    requires m.pc >= 0 && fuel <= more
    requires !RunLoop(m, fuel).OutOfFuel?
    ensures RunLoop(m, more) == RunLoop(m, fuel)
    decreases fuel
  {
    if m.running && m.pc < |m.program| {
      var o := Step(m);
      if o.Next? {
        assert RunLoop(m, fuel) == RunLoop(o.m, fuel - 1);
        assert RunLoop(m, more) == RunLoop(o.m, more - 1);
        RunLoopMonotone(o.m, fuel - 1, more - 1);
      }
    }
  }
}
