/**
 * Where the stack machine's depth-counting scans land. A sequence of
 * instructions is balanced for a scan when walking it never closes a marker
 * it did not open and ends at the depth it started from; the scans of IF,
 * ELSE, CBREAK and CONTINUE step over balanced code and stop at the marker
 * that closes their own construct.
 */
module Nesting {
  import opened Wrappers
  import opened Opcodes
  import opened VmSpec

  /** One instruction of a forward walk at relative depth `d`: None when it would close below the start. */
  function Walk1(kind: ScanKind, i: Instr, d: nat): Option<nat> {
    if kind == SkipToEndloop then
      if i.LOOP? then Some(d + 1)
      else if i.ENDLOOP? then (if d == 0 then None else Some(d - 1))
      else Some(d)
    else
      if i.IF? then Some(d + 1)
      else if i.ENDIF? then (if d == 0 then None else Some(d - 1))
      else if kind == SkipToElse && i.ELSE? && d == 0 then None
      else Some(d)
  }

  /** The relative depth after walking `s` forward from `d`. */
  function Walk(kind: ScanKind, s: seq<Instr>, d: nat): Option<nat>
    decreases |s|
  {
    if |s| == 0 then Some(d)
    else match Walk1(kind, s[0], d)
      case None => None
      case Some(d1) => Walk(kind, s[1..], d1)
  }

  /** One instruction of the backward walk of CONTINUE. */
  function Back1(i: Instr, d: nat): Option<nat> {
    if i.ENDLOOP? then Some(d + 1)
    else if i.LOOP? then (if d == 0 then None else Some(d - 1))
    else Some(d)
  }

  /** The relative depth after walking `s` backward, last instruction first, from `d`. */
  function BackWalk(s: seq<Instr>, d: nat): Option<nat>
    decreases |s|
  {
    if |s| == 0 then Some(d)
    else match Back1(Last(s), d)
      case None => None
      case Some(d1) => BackWalk(DropLast(s), d1)
  }

  /** `s` is balanced for the forward scan `kind`. */
  ghost predicate Balanced(kind: ScanKind, s: seq<Instr>) {
    forall d: nat :: Walk(kind, s, d) == Some(d)
  }

  /** `s` is balanced for the backward scan of CONTINUE. */
  ghost predicate BackBalanced(s: seq<Instr>) {
    forall d: nat :: BackWalk(s, d) == Some(d)
  }

  /** Balanced for every scan of the machine. */
  ghost predicate WellNested(s: seq<Instr>) {
    Balanced(SkipToElse, s) && Balanced(SkipToEndif, s) && Balanced(SkipToEndloop, s) && BackBalanced(s)
  }

  // ------------------------------------------------------------ composition

  lemma {:induction false} WalkAppend(kind: ScanKind, a: seq<Instr>, b: seq<Instr>, d: nat)
    ensures Walk(kind, a + b, d) == if Walk(kind, a, d).Some? then Walk(kind, b, Walk(kind, a, d).value) else None
    decreases |a|
  {
    if |a| == 0 {
      assert a + b == b;
    } else {
      assert (a + b)[0] == a[0];
      assert (a + b)[1..] == a[1..] + b;
      match Walk1(kind, a[0], d)
      case None =>
      case Some(d1) => WalkAppend(kind, a[1..], b, d1);
    }
  }

  lemma {:induction false} BackWalkAppend(a: seq<Instr>, b: seq<Instr>, d: nat)
    ensures BackWalk(a + b, d) == if BackWalk(b, d).Some? then BackWalk(a, BackWalk(b, d).value) else None
    decreases |b|
  {
    if |b| == 0 {
      assert a + b == a;
    } else {
      assert Last(a + b) == Last(b);
      assert DropLast(a + b) == a + DropLast(b);
      match Back1(Last(b), d)
      case None =>
      case Some(d1) => BackWalkAppend(a, DropLast(b), d1);
    }
  }

  /** Concatenating well-nested code gives well-nested code. */
  lemma WellNestedAppend(a: seq<Instr>, b: seq<Instr>)
    requires WellNested(a) && WellNested(b)
    ensures WellNested(a + b)
  {
    forall kind: ScanKind, d: nat
      ensures Walk(kind, a + b, d) == Some(d)
    {
      WalkAppend(kind, a, b, d);
    }
    forall d: nat
      ensures BackWalk(a + b, d) == Some(d)
    {
      BackWalkAppend(a, b, d);
    }
  }

  /** Code without structured markers (expression code) is well nested. */
  lemma {:induction false} UnmarkedWellNested(s: seq<Instr>)
    requires forall i :: 0 <= i < |s| ==> !s[i].IsMarker()
    ensures WellNested(s)
    decreases |s|
  {
    if |s| > 0 {
      UnmarkedWellNested(s[1..]);
      UnmarkedWellNested(DropLast(s));
      forall kind: ScanKind, d: nat
        ensures Walk(kind, s, d) == Some(d)
      {
        assert Walk1(kind, s[0], d) == Some(d);
      }
      forall d: nat
        ensures BackWalk(s, d) == Some(d)
      {
        assert Back1(Last(s), d) == Some(d);
      }
    }
  }

  /** The forward walk over `IF c ELSE a ENDIF`, given the walks over its parts at the depth inside it. */
  lemma IfBlockWalk(kind: ScanKind, c: seq<Instr>, a: seq<Instr>, d: nat, e: nat)
    requires e == if kind == SkipToEndloop then d else d + 1
    requires Walk(kind, c, e) == Some(e) && Walk(kind, a, e) == Some(e)
    ensures Walk(kind, [IF] + c + [ELSE] + a + [ENDIF], d) == Some(d)
  {
    assert Walk(kind, [IF], d) == Some(e);
    WalkAppend(kind, [IF], c, d);
    WalkAppend(kind, [IF] + c, [ELSE], d);
    assert Walk(kind, [ELSE], e) == Some(e);
    WalkAppend(kind, [IF] + c + [ELSE], a, d);
    WalkAppend(kind, [IF] + c + [ELSE] + a, [ENDIF], d);
    assert Walk(kind, [ENDIF], e) == Some(d);
  }

  /** The backward walk over `IF c ELSE a ENDIF`, given the walks over its parts. */
  lemma IfBlockBackWalk(c: seq<Instr>, a: seq<Instr>, d: nat)
    requires BackWalk(c, d) == Some(d) && BackWalk(a, d) == Some(d)
    ensures BackWalk([IF] + c + [ELSE] + a + [ENDIF], d) == Some(d)
  {
    BackWalkAppend([IF] + c + [ELSE] + a, [ENDIF], d);
    BackWalkAppend([IF] + c + [ELSE], a, d);
    BackWalkAppend([IF] + c, [ELSE], d);
    BackWalkAppend([IF], c, d);
  }

  /** `test IF consequence ELSE alternative ENDIF` is well nested when its parts are. */
  lemma IfBlockWellNested(test: seq<Instr>, c: seq<Instr>, a: seq<Instr>)
    requires WellNested(test) && WellNested(c) && WellNested(a)
    ensures WellNested(test + [IF] + c + [ELSE] + a + [ENDIF])
  {
    var block := [IF] + c + [ELSE] + a + [ENDIF];
    forall kind: ScanKind, d: nat
      ensures Walk(kind, block, d) == Some(d)
    {
      var e := if kind == SkipToEndloop then d else d + 1;
      assert Walk(kind, c, e) == Some(e) && Walk(kind, a, e) == Some(e);
      IfBlockWalk(kind, c, a, d, e);
    }
    forall d: nat
      ensures BackWalk(block, d) == Some(d)
    {
      assert BackWalk(c, d) == Some(d) && BackWalk(a, d) == Some(d);
      IfBlockBackWalk(c, a, d);
    }
    WellNestedAppend(test, block);
    assert test + block == test + [IF] + c + [ELSE] + a + [ENDIF];
  }

  /** `LOOP inner ENDLOOP` is well nested when `inner` is. */
  lemma LoopWrapWellNested(inner: seq<Instr>)
    requires WellNested(inner)
    ensures WellNested([LOOP] + inner + [ENDLOOP])
  {
    var block := [LOOP] + inner + [ENDLOOP];
    forall kind: ScanKind, d: nat
      ensures Walk(kind, block, d) == Some(d)
    {
      var e := if kind == SkipToEndloop then d + 1 else d;
      assert Walk(kind, [LOOP], d) == Some(e);
      WalkAppend(kind, [LOOP], inner, d);
      WalkAppend(kind, [LOOP] + inner, [ENDLOOP], d);
      assert Walk(kind, [ENDLOOP], e) == Some(d);
    }
    forall d: nat
      ensures BackWalk(block, d) == Some(d)
    {
      BackWalkAppend([LOOP] + inner, [ENDLOOP], d);
      BackWalkAppend([LOOP], inner, d + 1);
    }
  }

  /** `LOOP CONSTI 1 test SUBI CBREAK body ENDLOOP` is well nested when the test and body are. */
  lemma WhileBlockWellNested(test: seq<Instr>, body: seq<Instr>)
    requires WellNested(test) && WellNested(body)
    ensures WellNested([LOOP, CONSTI(1)] + test + [SUBI, CBREAK] + body + [ENDLOOP])
  {
    var mid: seq<Instr> := [SUBI, CBREAK];
    UnmarkedWellNested(mid);
    UnmarkedWellNested([CONSTI(1)]);
    WellNestedAppend(test, mid);
    WellNestedAppend(test + mid, body);
    WellNestedAppend([CONSTI(1)], test + mid + body);
    var inner := [CONSTI(1)] + (test + mid + body);
    LoopWrapWellNested(inner);
    assert [LOOP] + inner + [ENDLOOP] == [LOOP, CONSTI(1)] + test + [SUBI, CBREAK] + body + [ENDLOOP];
  }

  /** A lone CBREAK or CONTINUE (the lowering of break and continue) is well nested. */
  lemma JumpWellNested(i: Instr)
    requires i.CBREAK? || i.CONTINUE? || i.RET?
    ensures WellNested([i])
  {
    forall kind: ScanKind, d: nat
      ensures Walk(kind, [i], d) == Some(d)
    {
    }
    forall d: nat
      ensures BackWalk([i], d) == Some(d)
    {
    }
  }

  // ------------------------------------------------------------ scans

  /** A forward scan steps over balanced code and comes out at the depth it went in with. */
  lemma {:induction false} ScanSkips(kind: ScanKind, prog: seq<Instr>, pc: nat, depth: nat, w: nat, s: seq<Instr>, e: nat)
    requires depth >= 1 && pc + |s| < |prog| && prog[pc + 1 .. pc + 1 + |s|] == s
    requires Walk(kind, s, w) == Some(e)
    ensures ScanForward(kind, prog, pc, depth + w) == ScanForward(kind, prog, pc + |s|, depth + e)
    decreases |s|
  {
    if |s| > 0 {
      assert prog[pc + 1] == s[0];
      var w1 := Walk1(kind, s[0], w).value;
      assert ScanDepth(kind, s[0], depth + w) == depth + w1;
      assert prog[pc + 2 .. pc + 2 + |s[1..]|] == s[1..];
      ScanSkips(kind, prog, pc + 1, depth, w1, s[1..], e);
    }
  }

  /** The backward scan of CONTINUE steps over back-balanced code. */
  lemma {:induction false} ScanBackSkips(prog: seq<Instr>, pc: nat, depth: nat, w: nat, s: seq<Instr>, e: nat)
    requires depth >= 1 && |s| <= pc <= |prog| && prog[pc - |s| .. pc] == s
    requires BackWalk(s, w) == Some(e)
    ensures ScanBackward(prog, pc, depth + w) == ScanBackward(prog, pc - |s|, depth + e)
    decreases |s|
  {
    if |s| > 0 {
      assert prog[pc - 1] == Last(s);
      var w1 := Back1(Last(s), w).value;
      assert BackDepth(Last(s), depth + w) == depth + w1;
      assert prog[pc - 1 - |DropLast(s)| .. pc - 1] == DropLast(s);
      ScanBackSkips(prog, pc - 1, depth, w1, DropLast(s), e);
    }
  }

  /** A forward scan at depth 1 steps over code it walks back to depth 0 and stops on the closer after it. */
  lemma {:induction false} SkipsToCloser(kind: ScanKind, prog: seq<Instr>, p: nat, s: seq<Instr>)
    requires p + 1 + |s| < |prog| && prog[p + 1 .. p + 1 + |s|] == s
    requires Walk(kind, s, 0) == Some(0) && ScanDepth(kind, prog[p + 1 + |s|], 1) == 0
    ensures ScanForward(kind, prog, p, 1) == Some(p + 1 + |s|)
  {
    ScanSkips(kind, prog, p, 1, 0, s, 0);
    var at := p + |s|;
    assert ScanForward(kind, prog, at, 1) == ScanForward(kind, prog, at + 1, 0);
  }

  /** IF whose branch is skipped lands on the ELSE after its balanced consequence. */
  lemma {:induction false} IfFindsElse(prog: seq<Instr>, p: nat, c: seq<Instr>)
    requires p + 1 + |c| < |prog| && prog[p + 1 .. p + 1 + |c|] == c && prog[p + 1 + |c|] == ELSE
    requires Balanced(SkipToElse, c)
    ensures ScanForward(SkipToElse, prog, p, 1) == Some(p + 1 + |c|)
  {
    assert Walk(SkipToElse, c, 0) == Some(0);
    SkipsToCloser(SkipToElse, prog, p, c);
  }

  /** ELSE lands on the ENDIF after its balanced alternative. */
  lemma {:induction false} ElseFindsEndif(prog: seq<Instr>, q: nat, a: seq<Instr>)
    requires q + 1 + |a| < |prog| && prog[q + 1 .. q + 1 + |a|] == a && prog[q + 1 + |a|] == ENDIF
    requires Balanced(SkipToEndif, a)
    ensures ScanForward(SkipToEndif, prog, q, 1) == Some(q + 1 + |a|)
  {
    assert Walk(SkipToEndif, a, 0) == Some(0);
    SkipsToCloser(SkipToEndif, prog, q, a);
  }

  /** CBREAK lands on the ENDLOOP after the balanced code that follows it. */
  lemma {:induction false} CBreakFindsEndloop(prog: seq<Instr>, r: nat, b: seq<Instr>)
    requires r + 1 + |b| < |prog| && prog[r + 1 .. r + 1 + |b|] == b && prog[r + 1 + |b|] == ENDLOOP
    requires Balanced(SkipToEndloop, b)
    ensures ScanForward(SkipToEndloop, prog, r, 1) == Some(r + 1 + |b|)
  {
    assert Walk(SkipToEndloop, b, 0) == Some(0);
    SkipsToCloser(SkipToEndloop, prog, r, b);
  }

  /** CONTINUE lands on the LOOP before the back-balanced code that precedes it. */
  lemma {:induction false} ContinueFindsLoop(prog: seq<Instr>, l: nat, c: nat)
    requires l < c <= |prog| && prog[l] == LOOP && BackBalanced(prog[l + 1 .. c])
    ensures ScanBackward(prog, c, 1) == Some(l)
  {
    var s := prog[l + 1 .. c];
    assert BackWalk(s, 0) == Some(0);
    ScanBackSkips(prog, c, 1, 0, s, 0);
  }
}
