/** Where the generator's lowering puts each instruction: the jump targets of if, while and
    for, the frame of a function, call lowering, and slot allocation. */
module GeneratorLayout {
  import opened Wrappers
  import opened Ast
  import opened Values
  import opened Dicts
  import opened Generator
  import opened GeneratorProps
  import Lexer
  import Parser

  /** An if without else: the condition, JUMP_IF_FALSE to the index just after the then block,
      then the block. */
  lemma IfLayout(g: Gen, c: Expr, t: seq<Item>)
    ensures var r := GenStmt(g, If(c, t, []));
      var a := GenExpr(g, c);
      var b := GenItems(Emit(a.gen, JUMP_IF_FALSE, NoArg), t);
      r.outcome.Pass? ==>
        a.outcome.Pass? && b.outcome.Pass? &&
        |r.gen.instructions| == |b.gen.instructions| > |a.gen.instructions| &&
        r.gen.instructions[|a.gen.instructions|] == Instr(JUMP_IF_FALSE, Num(|r.gen.instructions|), Line) &&
        r.gen.instructions[|a.gen.instructions| + 1..] == b.gen.instructions[|a.gen.instructions| + 1..]
  {
    var a := GenExpr(g, c);
    var e := Emit(a.gen, JUMP_IF_FALSE, NoArg);
    var b := GenItems(e, t);
    if a.outcome.Pass? && b.outcome.Pass? {
      assert b.gen.instructions[|a.gen.instructions|] == e.instructions[|a.gen.instructions|];
    }
  }

  /** An if with an else block: JUMP_IF_FALSE goes to the first else instruction, just after
      the JUMP that ends the then block, and that JUMP goes to the index after the else block. */
  lemma IfElseLayout(g: Gen, c: Expr, t: seq<Item>, f: seq<Item>)
    requires f != []
    ensures var r := GenStmt(g, If(c, t, f));
      var a := GenExpr(g, c);
      var b := GenItems(Emit(a.gen, JUMP_IF_FALSE, NoArg), t);
      var end := |b.gen.instructions|;
      r.outcome.Pass? ==>
        a.outcome.Pass? && b.outcome.Pass? &&
        |a.gen.instructions| < end < |r.gen.instructions| &&
        r.gen.instructions[|a.gen.instructions|] == Instr(JUMP_IF_FALSE, Num(end + 1), Line) &&
        r.gen.instructions[end] == Instr(JUMP, Num(|r.gen.instructions|), Line)
  {
    var r := GenStmt(g, If(c, t, f));
    var a := GenExpr(g, c);
    var e := Emit(a.gen, JUMP_IF_FALSE, NoArg);
    var b := GenItems(e, t);
    if r.outcome.Pass? {
      var A := |a.gen.instructions|;
      var j := Emit(b.gen, JUMP, NoArg);
      var h := Patch(j, A, |j.instructions|);
      var cc := GenItems(h, f);
      assert r.gen == Patch(cc.gen, |b.gen.instructions|, |cc.gen.instructions|);
      assert b.gen.instructions[A] == e.instructions[A];
      assert j.instructions[A] == b.gen.instructions[A];
      assert cc.gen.instructions[A] == h.instructions[A];
      assert cc.gen.instructions[|b.gen.instructions|] == h.instructions[|b.gen.instructions|];
    }
  }

  /** A while loop: JUMP_IF_FALSE leaves to the index after the loop's last instruction, which
      is a JUMP back to the first instruction of the condition. */
  lemma WhileLayout(g: Gen, c: Expr, body: seq<Item>)
    ensures var r := GenStmt(g, While(c, body));
      var a := GenExpr(g, c);
      r.outcome.Pass? ==>
        a.outcome.Pass? && |a.gen.instructions| < |r.gen.instructions| - 1 &&
        r.gen.instructions[|a.gen.instructions|] == Instr(JUMP_IF_FALSE, Num(|r.gen.instructions|), Line) &&
        r.gen.instructions[|r.gen.instructions| - 1] == Instr(JUMP, Num(|g.instructions|), Line)
  {
    var r := GenStmt(g, While(c, body));
    var a := GenExpr(g, c);
    var e := Emit(a.gen, JUMP_IF_FALSE, NoArg);
    var b := GenItems(e, body);
    if r.outcome.Pass? {
      var j := Emit(b.gen, JUMP, Num(|g.instructions|));
      assert r.gen == Patch(j, |a.gen.instructions|, |j.instructions|);
      assert b.gen.instructions[|a.gen.instructions|] == e.instructions[|a.gen.instructions|];
    }
  }

  /** The instructions of a for loop whose start value ends at A and whose bound ends at B. */
  predicate ForCode(code: seq<Instr>, constants: seq<Value>, A: nat, B: nat, slot: nat)
  {
    A + 2 <= B && B + 7 <= |code| &&
    code[A] == Instr(STORE_VAR, Num(slot), Line) && code[A + 1] == Instr(LOAD_VAR, Num(slot), Line) &&
    code[B] == Instr(BINARY_OP, Name("<="), Line) && code[B + 1] == Instr(JUMP_IF_FALSE, Num(|code|), Line) &&
    code[|code| - 5] == Instr(LOAD_VAR, Num(slot), Line) &&
    code[|code| - 4].opcode == LOAD_CONST && code[|code| - 4].arg.Num? &&
    0 <= code[|code| - 4].arg.n < |constants| && PyEq(constants[code[|code| - 4].arg.n], IntV(1)) &&
    code[|code| - 3] == Instr(BINARY_OP, Name("+"), Line) &&
    code[|code| - 2] == Instr(STORE_VAR, Num(slot), Line) &&
    code[|code| - 1] == Instr(JUMP, Num(A + 1), Line)
  }

  /** A for loop: the start value is stored in slot len(variables), the test `v <= end` is
      followed by JUMP_IF_FALSE to the index after the loop, and the loop ends with
      `v = v + 1` and a JUMP back to the LOAD_VAR that starts the test. */
  lemma ForLayout(g: Gen, v: string, start: Expr, end: Expr, body: seq<Item>)
    ensures var r := GenStmt(g, For(v, start, end, body));
      var a := GenExpr(g, start);
      var slot := |a.gen.variables|;
      var g1 := Emit(a.gen.(variables := Put(a.gen.variables, v, slot)), STORE_VAR, Num(slot));
      var b := GenExpr(Emit(g1, LOAD_VAR, Num(slot)), end);
      r.outcome.Pass? ==>
        a.outcome.Pass? && b.outcome.Pass? && slot == |g.variables| &&
        ForCode(r.gen.instructions, r.gen.constants, |a.gen.instructions|, |b.gen.instructions|, slot)
  {
    var r := GenStmt(g, For(v, start, end, body));
    assert r == GenFor(g, v, start, end, body);
    if r.outcome.Pass? {
      GenForUnfold(g, v, start, end, body);
      var a := GenExpr(g, start);
      var slot := |a.gen.variables|;
      var g1 := Emit(a.gen.(variables := Put(a.gen.variables, v, slot)), STORE_VAR, Num(slot));
      var b := GenExpr(Emit(g1, LOAD_VAR, Num(slot)), end);
      var g3 := Emit(b.gen, BINARY_OP, Name("<="));
      var c := GenItems(Emit(g3, JUMP_IF_FALSE, NoArg), body);
      ForPieces(a.gen, slot, g1, b.gen, c.gen);
    }
  }

  /** ForLayout over the pieces of GenFor. */
  lemma ForPieces(a: Gen, slot: nat, g1: Gen, b: Gen, c: Gen)
    requires g1.instructions == a.instructions + [Instr(STORE_VAR, Num(slot), Line)]
    requires Grows(Emit(g1, LOAD_VAR, Num(slot)), b)
    requires Grows(Emit(Emit(b, BINARY_OP, Name("<=")), JUMP_IF_FALSE, NoArg), c)
    ensures var g8 := Increment(c, slot, |g1.instructions|);
      var z := Patch(g8, |Emit(b, BINARY_OP, Name("<=")).instructions|, |g8.instructions|);
      ForCode(z.instructions, z.constants, |a.instructions|, |b.instructions|, slot)
  {
    var A, B, C := |a.instructions|, |b.instructions|, |c.instructions|;
    ForHead(a, slot, g1, b, c);
    var g8 := Increment(c, slot, |g1.instructions|);
    IncrementTail(c, slot, |g1.instructions|);
    var z := Patch(g8, B + 1, C + 5);
    assert forall k :: 0 <= k < C + 5 && k != B + 1 ==> z.instructions[k] == g8.instructions[k];
  }

  /** The test of a for loop, as it stands before the body's end is known. */
  lemma ForHead(a: Gen, slot: nat, g1: Gen, b: Gen, c: Gen)
    requires g1.instructions == a.instructions + [Instr(STORE_VAR, Num(slot), Line)]
    requires Grows(Emit(g1, LOAD_VAR, Num(slot)), b)
    requires Grows(Emit(Emit(b, BINARY_OP, Name("<=")), JUMP_IF_FALSE, NoArg), c)
    ensures |a.instructions| + 2 <= |b.instructions| && |b.instructions| + 2 <= |c.instructions|
    ensures c.instructions[|a.instructions|] == Instr(STORE_VAR, Num(slot), Line)
    ensures c.instructions[|a.instructions| + 1] == Instr(LOAD_VAR, Num(slot), Line)
    ensures c.instructions[|b.instructions|] == Instr(BINARY_OP, Name("<="), Line)
    ensures c.instructions[|b.instructions| + 1].opcode == JUMP_IF_FALSE
  {
    var g2 := Emit(g1, LOAD_VAR, Num(slot));
    var e := Emit(Emit(b, BINARY_OP, Name("<=")), JUMP_IF_FALSE, NoArg);
    var A, B := |a.instructions|, |b.instructions|;
    assert g2.instructions[A] == g1.instructions[A];
    assert b.instructions[A] == g2.instructions[A] && b.instructions[A + 1] == g2.instructions[A + 1];
    assert e.instructions[A] == b.instructions[A] && e.instructions[A + 1] == b.instructions[A + 1];
    assert c.instructions[A] == e.instructions[A] && c.instructions[A + 1] == e.instructions[A + 1];
    assert c.instructions[B] == e.instructions[B] && c.instructions[B + 1] == e.instructions[B + 1];
  }

  /** The five instructions of `v = v + 1; jump back`, and the constant they load. */
  lemma IncrementTail(c: Gen, slot: nat, loopStart: nat)
    ensures var g8 := Increment(c, slot, loopStart);
      var C := |c.instructions|;
      (forall k :: 0 <= k < C ==> g8.instructions[k] == c.instructions[k]) &&
      g8.instructions[C] == Instr(LOAD_VAR, Num(slot), Line) &&
      g8.instructions[C + 1].opcode == LOAD_CONST && g8.instructions[C + 1].arg.Num? &&
      0 <= g8.instructions[C + 1].arg.n < |g8.constants| && PyEq(g8.constants[g8.instructions[C + 1].arg.n], IntV(1)) &&
      g8.instructions[C + 2] == Instr(BINARY_OP, Name("+"), Line) &&
      g8.instructions[C + 3] == Instr(STORE_VAR, Num(slot), Line) &&
      g8.instructions[C + 4] == Instr(JUMP, Num(loopStart), Line)
  {
    var g8 := Increment(c, slot, loopStart);
    var C := |c.instructions|;
    assert forall k :: C <= k < C + 5 ==> g8.instructions[k] == g8.instructions[C..][k - C];
  }

  /** A function definition: its name is bound to the FUNCTION_START address before the body
      is compiled (so a recursive call compiles to CALL that address), its parameters are not
      bound, and the body is followed by LOAD_CONST None and RETURN. No jump skips the body. */
  lemma FunctionLayout(g: Gen, n: string, ps: seq<string>, body: seq<Item>)
    ensures var r := GenStmt(g, Function(n, ps, body));
      var g1 := Emit(g.(functions := Put(g.functions, n, |g.instructions|)), FUNCTION_START, Num(|ps|));
      var code := r.gen.instructions;
      Find(g1.functions, n) == Some(|g.instructions|) && g1.variables == g.variables &&
      g1.instructions[|g.instructions|] == Instr(FUNCTION_START, Num(|ps|), Line) &&
      (GenItems(g1, body).outcome.Fail? ==> r == GenItems(g1, body)) &&
      (r.outcome.Pass? ==>
        |g.instructions| + 3 <= |code| &&
        code[|g.instructions|] == Instr(FUNCTION_START, Num(|ps|), Line) &&
        code[|code| - 2].opcode == LOAD_CONST && code[|code| - 2].arg.Num? &&
        0 <= code[|code| - 2].arg.n < |r.gen.constants| && r.gen.constants[code[|code| - 2].arg.n] == NoneV &&
        code[|code| - 1] == Instr(RETURN, NoArg, Line))
  {
    var g0 := g.(functions := Put(g.functions, n, |g.instructions|));
    var g1 := Emit(g0, FUNCTION_START, Num(|ps|));
    PutFind(g.functions, n, |g.instructions|, n);
    var b := GenItems(g1, body);
    FunctionUnfolds(g, n, ps, body);
    assert b.gen.instructions[|g.instructions|] == g1.instructions[|g.instructions|];
    if b.outcome.Pass? {
      var l := LoadConst(b.gen, NoneV);
      var k := PoolAdd(b.gen.constants, NoneV).1;
      assert l.instructions[|l.instructions| - 1] == Instr(LOAD_CONST, Num(k), Line);
      assert PyEq(l.constants[k], NoneV);
    }
  }

  /** A call compiles its arguments left to right and then CALL with the address of a function
      defined earlier, or CALL_BUILTIN with the name for any other name. */
  lemma CallLowering(g: Gen, n: string, args: seq<Expr>)
    ensures var r := GenExpr(g, FunctionCall(n, args));
      var a := GenArgs(g, args);
      r.outcome == a.outcome &&
      (r.outcome.Pass? ==>
        r.gen.instructions[..|r.gen.instructions| - 1] == a.gen.instructions &&
        r.gen.instructions[|r.gen.instructions| - 1] ==
          match Find(g.functions, n)
          case Some(addr) => Instr(CALL, Num(addr), Line)
          case None => Instr(CALL_BUILTIN, Name(n), Line))
  {
    var a := GenArgs(g, args);
    if a.outcome.Pass? {
      var op := match Find(g.functions, n)
        case Some(addr) => Instr(CALL, Num(addr), Line)
        case None => Instr(CALL_BUILTIN, Name(n), Line);
      assert Emit(a.gen, op.opcode, op.arg).instructions[..|a.gen.instructions|] == a.gen.instructions;
    }
  }

  /** A declaration binds its name to len(variables), taken before the name is added, and
      stores into that slot; a name declared again keeps its place, so the dict does not grow. */
  lemma DeclarationSlot(g: Gen, n: string, e: Expr)
    ensures var r := GenStmt(g, Assignment(n, e, true));
      r.outcome == GenExpr(g, e).outcome &&
      (r.outcome.Pass? ==>
        r.gen.variables == Put(g.variables, n, |g.variables|) &&
        Find(r.gen.variables, n) == Some(|g.variables|) &&
        |r.gen.variables| == (if HasKey(g.variables, n) then |g.variables| else |g.variables| + 1) &&
        r.gen.instructions[|r.gen.instructions| - 1] == Instr(STORE_VAR, Num(|g.variables|), Line))
  {
    var a := GenExpr(g, e);
    PutFind(a.gen.variables, n, |a.gen.variables|, n);
  }

  /** An assignment to a declared name stores into its slot and binds nothing new; to an
      undeclared name it raises NameError. */
  lemma AssignmentSlot(g: Gen, n: string, e: Expr)
    ensures var r := GenStmt(g, Assignment(n, e, false));
      var a := GenExpr(g, e);
      a.outcome.Pass? ==>
        match Find(g.variables, n)
        case Some(k) =>
          r.outcome.Pass? && r.gen.variables == g.variables &&
          r.gen.instructions[|r.gen.instructions| - 1] == Instr(STORE_VAR, Num(k), Line)
        case None => r.outcome == Fail(NameError(n))
  {
  }

  /** Reading a name is LOAD_VAR of its slot, or NameError when it was never declared. */
  lemma IdentifierLowering(g: Gen, n: string)
    ensures var r := GenExpr(g, Identifier(n));
      (r.outcome.Pass? <==> HasKey(g.variables, n)) &&
      (r.outcome.Fail? ==> r.outcome.msg == NameError(n) && r.gen == g) &&
      (r.outcome.Pass? ==> r.gen.instructions == g.instructions + [Instr(LOAD_VAR, Num(Find(g.variables, n).value), Line)])
  {
  }

  /** Declaring a name with a literal value always compiles, and its only effect on the dict
      is `variables[n] = len(variables)`. */
  lemma DeclareConstant(g: Gen, n: string, one: Expr)
    requires one.Literal?
    ensures var r := GenStmt(g, Assignment(n, one, true));
      r.outcome.Pass? && r.gen.variables == Put(g.variables, n, |g.variables|)
  {
    DeclarationSlot(g, n, one);
  }

  /** Re-declaring a name keeps its position in the dict, so the next declaration takes the same
      slot: after `var x; var y; var x; var z` (each step as DeclareConstant states it), x and z
      both use slot 2. */
  lemma RedeclarationSharesSlot()
    ensures var d := Put(Put(Put(Put([], "x", 0), "y", 1), "x", 2), "z", 2);
      Find(d, "x") == Some(2) && Find(d, "z") == Some(2)
  {
    var d1 := Put([], "x", 0);
    assert d1 == [("x", 0)];
    var d2 := Put(d1, "y", 1);
    assert "x" != "y" by { assert "x"[0] != "y"[0]; }
    assert d2 == [("x", 0), ("y", 1)];
    var d3 := Put(d2, "x", 2);
    assert d3 == [("x", 2), ("y", 1)];
    var d4 := Put(d3, "z", 2);
    assert "x" != "z" by { assert "x"[0] != "z"[0]; }
    assert "y" != "z" by { assert "y"[0] != "z"[0]; }
    assert d4 == [("x", 2), ("y", 1), ("z", 2)];
  }

  /** A function's parameters are not bound: a body that reads one fails to compile unless the
      name was declared before the function. */
  lemma ParameterNotBound(g: Gen, f: string, p: string)
    requires !HasKey(g.variables, p)
    ensures GenStmt(g, Function(f, [p], [Node(Return(Some(Identifier(p))))])).outcome == Fail(NameError(p))
  {
    var g1 := Emit(g.(functions := Put(g.functions, f, |g.instructions|)), FUNCTION_START, Num(1));
    FunctionLayout(g, f, [p], [Node(Return(Some(Identifier(p))))]);
    ReturnUnbound(g1, p);
  }

  lemma ReturnUnbound(g: Gen, p: string)
    requires !HasKey(g.variables, p)
    ensures GenItems(g, [Node(Return(Some(Identifier(p))))]).outcome == Fail(NameError(p))
  {
    var items := [Node(Return(Some(Identifier(p))))];
    IdentifierLowering(g, p);
    assert GenItem(g, items[0]).outcome == Fail(NameError(p));
  }

  /** A string token used as an operand is classified as an identifier, so printing
      `"text" + x` fails on the text itself: the left operand is lowered first and its
      name was never declared. */
  lemma StringOperandUnbound(g: Gen, s: string, op: string, right: Expr)
    requires s != "true" && s != "false"
    requires !HasKey(g.variables, s)
    ensures Parser.Classify(Lexer.TextValue(s)) == Identifier(s)
    ensures GenStmt(g, Print(BinaryOp(Parser.Classify(Lexer.TextValue(s)), op, right))).outcome == Fail(NameError(s))
  {
    IdentifierLowering(g, s);
  }
}
