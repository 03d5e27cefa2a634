/** What the generator promises about the code it produces: a duplicate-free constant pool,
    jump operands that are valid indices, the shapes of the if/while/for/function lowerings,
    slot allocation, name errors, and the stack effect of expressions and statements. */
module GeneratorProps {
  import opened Wrappers
  import opened Ast
  import opened Values
  import opened Dicts
  import opened Generator

  // ---------------------------------------------------------------------------------------
  // The constant pool

  /** No two pool entries are equal under Python's ==, and a FunctionCallNode object sits at
      the index that stands for its identity. */
  predicate PoolOk(pool: seq<Value>)
  {
    (forall i, j :: 0 <= i < j < |pool| ==> !PyEq(pool[i], pool[j])) &&
    (forall i :: 0 <= i < |pool| && pool[i].NodeV? ==> pool[i].id == i)
  }

  lemma {:induction false} PoolAddKeeps(pool: seq<Value>, v: Value)
    requires PoolOk(pool)
    requires v.NodeV? ==> v.id == |pool|
    ensures PoolOk(PoolAdd(pool, v).0)
  {
    if PoolIndex(pool, v).None? {
      var q := pool + [v];
      forall i, j | 0 <= i < j < |q|
        ensures !PyEq(q[i], q[j])
      {
        if j == |pool| {
          assert !PyEq(pool[i], v);
        }
      }
    }
  }

  lemma LitConstKeeps(pool: seq<Value>, v: LitValue)
    requires PoolOk(pool)
    ensures PoolOk(PoolAdd(pool, LitConst(pool, v)).0)
  {
    PoolAddKeeps(pool, LitConst(pool, v));
  }

  lemma {:induction false} GenExprPool(g: Gen, e: Expr)
    requires PoolOk(g.constants)
    ensures PoolOk(GenExpr(g, e).gen.constants)
    decreases e
  {
    match e
    case BinaryOp(l, op, rhs) =>
      GenExprPool(g, l);
      GenExprPool(GenExpr(g, l).gen, rhs);
    case UnaryOp(op, x) =>
      GenExprPool(g, x);
    case Literal(v) =>
      LitConstKeeps(g.constants, v);
    case Identifier(n) =>
    case FunctionCall(n, args) =>
      GenArgsPool(g, args);
  }

  lemma {:induction false} GenArgsPool(g: Gen, args: seq<Expr>)
    requires PoolOk(g.constants)
    ensures PoolOk(GenArgs(g, args).gen.constants)
    decreases args
  {
    if args != [] {
      GenExprPool(g, args[0]);
      GenArgsPool(GenExpr(g, args[0]).gen, args[1..]);
    }
  }

  lemma {:induction false} GenStmtPool(g: Gen, s: Stmt)
    requires PoolOk(g.constants)
    ensures PoolOk(GenStmt(g, s).gen.constants)
    decreases s
  {
    match s
    case Assignment(n, e, d) =>
      GenExprPool(g, e);
    case If(c, t, f) =>
      GenExprPool(g, c);
      var a := GenExpr(g, c);
      GenItemsPool(Emit(a.gen, JUMP_IF_FALSE, NoArg), t);
      var b := GenItems(Emit(a.gen, JUMP_IF_FALSE, NoArg), t);
      if b.outcome.Pass? && f != [] {
        var j := Emit(b.gen, JUMP, NoArg);
        GenItemsPool(Patch(j, |a.gen.instructions|, |j.instructions|), f);
      }
    case While(c, body) =>
      GenExprPool(g, c);
      GenItemsPool(Emit(GenExpr(g, c).gen, JUMP_IF_FALSE, NoArg), body);
    case For(v, start, end, body) =>
      GenForPool(g, v, start, end, body);
    case Function(n, ps, body) =>
      var g1 := g.(functions := Put(g.functions, n, |g.instructions|));
      GenItemsPool(Emit(g1, FUNCTION_START, Num(|ps|)), body);
      PoolAddKeeps(GenItems(Emit(g1, FUNCTION_START, Num(|ps|)), body).gen.constants, NoneV);
    case Return(value) =>
      if value.Some? {
        GenExprPool(g, value.value);
      } else {
        PoolAddKeeps(g.constants, NoneV);
      }
    case Print(e) =>
      GenExprPool(g, e);
    case ExpressionStatement(e) =>
      GenExprPool(g, e);
  }

  lemma {:induction false} GenForPool(g: Gen, v: string, start: Expr, end: Expr, body: seq<Item>)
    requires PoolOk(g.constants)
    ensures PoolOk(GenStmt(g, For(v, start, end, body)).gen.constants)
    decreases For(v, start, end, body), 1
  {
    assert GenStmt(g, For(v, start, end, body)) == GenFor(g, v, start, end, body);
    GenExprPool(g, start);
    var a := GenExpr(g, start);
    if a.outcome.Pass? {
      var slot := |a.gen.variables|;
      var g1 := Emit(a.gen.(variables := Put(a.gen.variables, v, slot)), STORE_VAR, Num(slot));
      GenForLoopPool(g1, v, start, end, body, slot);
    }
  }

  lemma {:induction false} GenForLoopPool(g1: Gen, v: string, start: Expr, end: Expr, body: seq<Item>, slot: nat)
    requires PoolOk(g1.constants)
    ensures PoolOk(GenForLoop(g1, v, start, end, body, slot).gen.constants)
    decreases For(v, start, end, body), 0
  {
    GenExprPool(Emit(g1, LOAD_VAR, Num(slot)), end);
    var b := GenExpr(Emit(g1, LOAD_VAR, Num(slot)), end);
    if b.outcome.Pass? {
      var g3 := Emit(b.gen, BINARY_OP, Name("<="));
      GenItemsPool(Emit(g3, JUMP_IF_FALSE, NoArg), body);
      var c := GenItems(Emit(g3, JUMP_IF_FALSE, NoArg), body);
      if c.outcome.Pass? {
        var g8 := Increment(c.gen, slot, |g1.instructions|);
        PoolAddKeeps(Emit(c.gen, LOAD_VAR, Num(slot)).constants, IntV(1));
        assert g8.constants == PoolAdd(c.gen.constants, IntV(1)).0;
      }
    }
  }

  lemma {:induction false} GenItemPool(g: Gen, it: Item)
    requires PoolOk(g.constants)
    ensures PoolOk(GenItem(g, it).gen.constants)
    decreases it
  {
    if it.Node? {
      GenStmtPool(g, it.stmt);
    }
  }

  lemma {:induction false} GenItemsPool(g: Gen, items: seq<Item>)
    requires PoolOk(g.constants)
    ensures PoolOk(GenItems(g, items).gen.constants)
    decreases items
  {
    if items != [] {
      GenItemPool(g, items[0]);
      GenItemsPool(GenItem(g, items[0]).gen, items[1..]);
    }
  }

  /** The constant pool generate leaves behind, whether or not it raised, holds no two values
      that Python considers equal. */
  lemma GeneratedPoolDistinct(p: Program)
    ensures forall i, j :: 0 <= i < j < |GenerateProgram(p).gen.constants| ==>
      !PyEq(GenerateProgram(p).gen.constants[i], GenerateProgram(p).gen.constants[j])
  {
    GenItemsPool(EmptyGen, p.statements);
  }

  /** Because 1 == True in Python, a program that loads 1 and then True finds the pool entry
      of 1 again, and the machine later loads the integer in place of the boolean. */
  lemma TrueSharesOnesEntry()
    ensures var g := GenExpr(EmptyGen, Literal(IntLit(1))).gen;
      var h := GenExpr(g, Literal(BoolLit(true))).gen;
      h.constants == [IntV(1)] && h.instructions[1] == Instr(LOAD_CONST, Num(0), Line)
  {
    var g := GenExpr(EmptyGen, Literal(IntLit(1))).gen;
    assert g.constants == [IntV(1)];
    assert PoolIndex(g.constants, BoolV(true)) == Some(0);
  }

  // ---------------------------------------------------------------------------------------
  // Jump operands

  predicate IsJump(op: Opcode) { op == JUMP || op == JUMP_IF_FALSE || op == JUMP_IF_TRUE }

  /** No jump among code[from..to]. */
  predicate NoJumps(code: seq<Instr>, from: nat, to: nat)
  {
    forall k :: from <= k < to && k < |code| ==> !IsJump(code[k].opcode)
  }

  /** Every jump among code[from..to] has an integer operand between lo and hi. */
  predicate JumpsWithin(code: seq<Instr>, from: nat, to: nat, lo: int, hi: int)
  {
    forall k :: from <= k < to && k < |code| && IsJump(code[k].opcode) ==>
      code[k].arg.Num? && lo <= code[k].arg.n <= hi
  }

  /** Two instruction lists agree on the indices from..to. */
  predicate Agree(c1: seq<Instr>, c2: seq<Instr>, from: nat, to: nat)
  {
    to <= |c1| && to <= |c2| && forall k :: from <= k < to ==> c1[k] == c2[k]
  }

  lemma GrowsAgree(g: Gen, h: Gen, from: nat, to: nat)
    requires Grows(g, h) && to <= |g.instructions|
    ensures Agree(g.instructions, h.instructions, from, to)
  {
    forall k | from <= k < to
      ensures g.instructions[k] == h.instructions[k]
    {
      assert h.instructions[..|g.instructions|][k] == h.instructions[k];
    }
  }

  lemma {:induction false} GenExprNoJumps(g: Gen, e: Expr)
    ensures NoJumps(GenExpr(g, e).gen.instructions, |g.instructions|, |GenExpr(g, e).gen.instructions|)
    decreases e
  {
    match e
    case BinaryOp(l, op, rhs) =>
      var a := GenExpr(g, l);
      GenExprNoJumps(g, l);
      GenExprNoJumps(a.gen, rhs);
      var b := GenExpr(a.gen, rhs);
      var r := GenExpr(g, e).gen;
      if a.outcome.Pass? && b.outcome.Pass? {
        GrowsAgree(a.gen, r, 0, |a.gen.instructions|);
        GrowsAgree(b.gen, r, 0, |b.gen.instructions|);
      }
    case UnaryOp(op, x) =>
      GenExprNoJumps(g, x);
      var a := GenExpr(g, x);
      if a.outcome.Pass? {
        GrowsAgree(a.gen, GenExpr(g, e).gen, 0, |a.gen.instructions|);
      }
    case Literal(v) =>
    case Identifier(n) =>
    case FunctionCall(n, args) =>
      GenArgsNoJumps(g, args);
      var a := GenArgs(g, args);
      if a.outcome.Pass? {
        GrowsAgree(a.gen, GenExpr(g, e).gen, 0, |a.gen.instructions|);
      }
  }

  lemma {:induction false} GenArgsNoJumps(g: Gen, args: seq<Expr>)
    ensures NoJumps(GenArgs(g, args).gen.instructions, |g.instructions|, |GenArgs(g, args).gen.instructions|)
    decreases args
  {
    if args != [] {
      var a := GenExpr(g, args[0]);
      GenExprNoJumps(g, args[0]);
      if a.outcome.Pass? {
        GenArgsNoJumps(a.gen, args[1..]);
        GrowsAgree(a.gen, GenArgs(g, args).gen, 0, |a.gen.instructions|);
      }
    }
  }

  lemma JumpsCarry(c1: seq<Instr>, c2: seq<Instr>, from: nat, to: nat, lo: int, hi: int, lo2: int, hi2: int)
    requires Agree(c1, c2, from, to) && JumpsWithin(c1, from, to, lo, hi) && lo2 <= lo && hi <= hi2
    ensures JumpsWithin(c2, from, to, lo2, hi2)
  {
  }

  lemma NoJumpsCarry(c1: seq<Instr>, c2: seq<Instr>, from: nat, to: nat, lo: int, hi: int)
    requires Agree(c1, c2, from, to) && NoJumps(c1, from, to)
    ensures JumpsWithin(c2, from, to, lo, hi)
  {
  }

  lemma JumpsJoin(code: seq<Instr>, a: nat, b: nat, c: nat, lo: int, hi: int)
    requires JumpsWithin(code, a, b, lo, hi) && JumpsWithin(code, b, c, lo, hi)
    ensures JumpsWithin(code, a, c, lo, hi)
  {
  }

  lemma PatchAgree(h: Gen, at: nat, t: nat, from: nat, to: nat)
    requires at < |h.instructions| && to <= |h.instructions| && (at < from || to <= at)
    ensures Agree(h.instructions, Patch(h, at, t).instructions, from, to)
  {
  }

  lemma AgreeTrans(c1: seq<Instr>, c2: seq<Instr>, c3: seq<Instr>, from: nat, to: nat)
    requires Agree(c1, c2, from, to) && Agree(c2, c3, from, to)
    ensures Agree(c1, c3, from, to)
  {
  }

  lemma NoJumpsEmit(x: Gen, from: nat, op: Opcode, arg: Arg)
    requires from <= |x.instructions| && NoJumps(x.instructions, from, |x.instructions|) && !IsJump(op)
    ensures NoJumps(Emit(x, op, arg).instructions, from, |x.instructions| + 1)
  {
    GrowsAgree(x, Emit(x, op, arg), from, |x.instructions|);
  }

  lemma NoJumpsGrow(x: Gen, y: Gen, from: nat)
    requires Grows(x, y) && from <= |x.instructions|
    requires NoJumps(x.instructions, from, |x.instructions|)
    requires NoJumps(y.instructions, |x.instructions|, |y.instructions|)
    ensures NoJumps(y.instructions, from, |y.instructions|)
  {
    GrowsAgree(x, y, from, |x.instructions|);
  }

  /** The shape shared by the three loop-like lowerings: straight code from G, a conditional
      jump at L with a placeholder, a block whose jumps stay inside it, then a tail whose
      jumps stay inside the whole; the placeholder is patched to the end. */
  lemma LoopShape(G: nat, a: Gen, b: Gen, tail: Gen)
    requires G <= |a.instructions| && NoJumps(a.instructions, G, |a.instructions|)
    requires Grows(Emit(a, JUMP_IF_FALSE, NoArg), b)
    requires JumpsWithin(b.instructions, |a.instructions| + 1, |b.instructions|, |a.instructions| + 1, |b.instructions|)
    requires Grows(b, tail)
    requires JumpsWithin(tail.instructions, |b.instructions|, |tail.instructions|, G, |tail.instructions|)
    ensures JumpsWithin(Patch(tail, |a.instructions|, |tail.instructions|).instructions, G, |tail.instructions|,
      G, |tail.instructions|)
  {
    var L, B, T := |a.instructions|, |b.instructions|, |tail.instructions|;
    var e1 := Emit(a, JUMP_IF_FALSE, NoArg);
    var z := Patch(tail, L, T);
    GrowsTrans(a, e1, b);
    GrowsTrans(a, b, tail);
    GrowsTrans(e1, b, tail);
    GrowsAgree(a, tail, G, L);
    PatchAgree(tail, L, T, G, L);
    AgreeTrans(a.instructions, tail.instructions, z.instructions, G, L);
    NoJumpsCarry(a.instructions, z.instructions, G, L, G, T);
    GrowsAgree(b, tail, L + 1, B);
    PatchAgree(tail, L, T, L + 1, B);
    AgreeTrans(b.instructions, tail.instructions, z.instructions, L + 1, B);
    JumpsCarry(b.instructions, z.instructions, L + 1, B, L + 1, B, G, T);
    PatchAgree(tail, L, T, B, T);
    JumpsCarry(tail.instructions, z.instructions, B, T, G, T, G, T);
    JumpsJoin(z.instructions, G, L, L + 1, G, T);
    JumpsJoin(z.instructions, G, L + 1, B, G, T);
    JumpsJoin(z.instructions, G, B, T, G, T);
  }

  /** visit_if with an else block: two placeholders, the first patched to just past the jump
      over the else block, the second to the end. */
  lemma IfElseShape(G: nat, a: Gen, b: Gen, cc: Gen)
    requires G <= |a.instructions| && NoJumps(a.instructions, G, |a.instructions|)
    requires Grows(Emit(a, JUMP_IF_FALSE, NoArg), b)
    requires JumpsWithin(b.instructions, |a.instructions| + 1, |b.instructions|, |a.instructions| + 1, |b.instructions|)
    requires var j := Emit(b, JUMP, NoArg);
      Grows(Patch(j, |a.instructions|, |j.instructions|), cc)
    requires JumpsWithin(cc.instructions, |b.instructions| + 1, |cc.instructions|, |b.instructions| + 1, |cc.instructions|)
    ensures JumpsWithin(Patch(cc, |b.instructions|, |cc.instructions|).instructions, G, |cc.instructions|,
      G, |cc.instructions|)
  {
    var L, J, C := |a.instructions|, |b.instructions|, |cc.instructions|;
    var z := Patch(cc, J, C);
    assert IfElseParts(G, a, b, cc);
    IfElseCondition(G, a, b, cc);
    IfElseThen(G, a, b, cc);
    IfElseElse(G, a, b, cc);
    JumpsJoin(z.instructions, G, L + 1, J, G, C);
    JumpsJoin(z.instructions, G, J, C, G, C);
  }

  /** The pieces visit_if with an else block puts together, as IfElseShape takes them. */
  predicate IfElseParts(G: nat, a: Gen, b: Gen, cc: Gen)
  {
    G <= |a.instructions| && NoJumps(a.instructions, G, |a.instructions|) &&
    Grows(Emit(a, JUMP_IF_FALSE, NoArg), b) &&
    JumpsWithin(b.instructions, |a.instructions| + 1, |b.instructions|, |a.instructions| + 1, |b.instructions|) &&
    Grows(Patch(Emit(b, JUMP, NoArg), |a.instructions|, |b.instructions| + 1), cc) &&
    JumpsWithin(cc.instructions, |b.instructions| + 1, |cc.instructions|, |b.instructions| + 1, |cc.instructions|)
  }

  /** The condition and its JUMP_IF_FALSE. */
  lemma IfElseCondition(G: nat, a: Gen, b: Gen, cc: Gen)
    requires IfElseParts(G, a, b, cc)
    ensures JumpsWithin(Patch(cc, |b.instructions|, |cc.instructions|).instructions, G, |a.instructions| + 1,
      G, |cc.instructions|)
  {
    var L, J, C := |a.instructions|, |b.instructions|, |cc.instructions|;
    var e1 := Emit(a, JUMP_IF_FALSE, NoArg);
    var j := Emit(b, JUMP, NoArg);
    var h := Patch(j, L, J + 1);
    var z := Patch(cc, J, C);
    GrowsTrans(a, e1, b);
    GrowsTrans(a, b, j);
    GrowsAgree(a, j, G, L);
    PatchAgree(j, L, J + 1, G, L);
    AgreeTrans(a.instructions, j.instructions, h.instructions, G, L);
    GrowsAgree(h, cc, G, L);
    AgreeTrans(a.instructions, h.instructions, cc.instructions, G, L);
    PatchAgree(cc, J, C, G, L);
    AgreeTrans(a.instructions, cc.instructions, z.instructions, G, L);
    NoJumpsCarry(a.instructions, z.instructions, G, L, G, C);
    GrowsAgree(h, cc, L, L + 1);
    PatchAgree(cc, J, C, L, L + 1);
    assert JumpsWithin(z.instructions, L, L + 1, G, C);
    JumpsJoin(z.instructions, G, L, L + 1, G, C);
  }

  /** The then block. */
  lemma IfElseThen(G: nat, a: Gen, b: Gen, cc: Gen)
    requires IfElseParts(G, a, b, cc)
    ensures JumpsWithin(Patch(cc, |b.instructions|, |cc.instructions|).instructions, |a.instructions| + 1,
      |b.instructions|, G, |cc.instructions|)
  {
    var L, J, C := |a.instructions|, |b.instructions|, |cc.instructions|;
    var e1 := Emit(a, JUMP_IF_FALSE, NoArg);
    var j := Emit(b, JUMP, NoArg);
    var h := Patch(j, L, J + 1);
    var z := Patch(cc, J, C);
    GrowsTrans(e1, b, j);
    GrowsAgree(b, j, L + 1, J);
    PatchAgree(j, L, J + 1, L + 1, J);
    AgreeTrans(b.instructions, j.instructions, h.instructions, L + 1, J);
    GrowsAgree(h, cc, L + 1, J);
    AgreeTrans(b.instructions, h.instructions, cc.instructions, L + 1, J);
    PatchAgree(cc, J, C, L + 1, J);
    AgreeTrans(b.instructions, cc.instructions, z.instructions, L + 1, J);
    JumpsCarry(b.instructions, z.instructions, L + 1, J, L + 1, J, G, C);
  }

  /** The jump over the else block, then the else block. */
  lemma IfElseElse(G: nat, a: Gen, b: Gen, cc: Gen)
    requires IfElseParts(G, a, b, cc)
    ensures JumpsWithin(Patch(cc, |b.instructions|, |cc.instructions|).instructions, |b.instructions|,
      |cc.instructions|, G, |cc.instructions|)
  {
    var L, J, C := |a.instructions|, |b.instructions|, |cc.instructions|;
    var z := Patch(cc, J, C);
    assert JumpsWithin(z.instructions, J, J + 1, G, C);
    PatchAgree(cc, J, C, J + 1, C);
    JumpsCarry(cc.instructions, z.instructions, J + 1, C, J + 1, C, G, C);
    JumpsJoin(z.instructions, J, J + 1, C, G, C);
  }

  /** The code a statement compiles to jumps only within itself: every jump operand lies
      between the statement's first instruction and the index just past its last one. */
  lemma {:induction false} GenStmtJumps(g: Gen, s: Stmt)
    ensures var r := GenStmt(g, s);
      r.outcome.Pass? ==>
        JumpsWithin(r.gen.instructions, |g.instructions|, |r.gen.instructions|, |g.instructions|, |r.gen.instructions|)
    decreases s
  {
    match s
    case If(c, t, f) => GenIfJumps(g, c, t, f);
    case While(c, body) => GenWhileJumps(g, c, body);
    case For(v, start, end, body) => GenForJumps(g, v, start, end, body);
      assert GenStmt(g, s) == GenFor(g, v, start, end, body);
    case Function(n, ps, body) => GenFunctionJumps(g, n, ps, body);
    case _ => GenSimpleJumps(g, s);
  }

  /** Statements without blocks compile to straight code. */
  lemma GenSimpleJumps(g: Gen, s: Stmt)
    requires !s.If? && !s.While? && !s.For? && !s.Function?
    ensures var r := GenStmt(g, s);
      r.outcome.Pass? ==> NoJumps(r.gen.instructions, |g.instructions|, |r.gen.instructions|)
  {
    match s
    case Assignment(n, e, d) => AssignmentNoJumps(g, n, e, d);
    case Return(value) => ReturnNoJumps(g, value);
    case Print(e) => ThenNoJumps(g, e, PRINT);
    case ExpressionStatement(e) => ThenNoJumps(g, e, POP);
  }

  /** An expression followed by PRINT or POP. */
  lemma ThenNoJumps(g: Gen, e: Expr, op: Opcode)
    requires !IsJump(op)
    ensures var r := GenThen(g, GenExpr(g, e), op);
      r.outcome.Pass? ==> NoJumps(r.gen.instructions, |g.instructions|, |r.gen.instructions|)
  {
    var a := GenExpr(g, e);
    GenExprNoJumps(g, e);
    if a.outcome.Pass? {
      NoJumpsEmit(a.gen, |g.instructions|, op, NoArg);
    }
  }

  lemma AssignmentNoJumps(g: Gen, n: string, e: Expr, d: bool)
    ensures var r := GenStmt(g, Assignment(n, e, d));
      r.outcome.Pass? ==> NoJumps(r.gen.instructions, |g.instructions|, |r.gen.instructions|)
  {
    var a := GenExpr(g, e);
    var r := GenAssignment(a, g, n, d);
    GenExprNoJumps(g, e);
    if r.outcome.Pass? {
      GrowsAgree(a.gen, r.gen, |g.instructions|, |a.gen.instructions|);
    }
  }

  lemma ReturnNoJumps(g: Gen, value: Option<Expr>)
    ensures var r := GenStmt(g, Return(value));
      r.outcome.Pass? ==> NoJumps(r.gen.instructions, |g.instructions|, |r.gen.instructions|)
  {
    if value.Some? {
      var a := GenExpr(g, value.value);
      GenExprNoJumps(g, value.value);
      if a.outcome.Pass? {
        NoJumpsEmit(a.gen, |g.instructions|, RETURN, NoArg);
      }
    }
  }

  /** visit_function_def, one step unfolded. */
  lemma FunctionUnfolds(g: Gen, n: string, ps: seq<string>, body: seq<Item>)
    ensures var b := GenItems(Emit(g.(functions := Put(g.functions, n, |g.instructions|)), FUNCTION_START, Num(|ps|)), body);
      GenStmt(g, Function(n, ps, body)) ==
        if b.outcome.Fail? then b else Emitted(Emit(LoadConst(b.gen, NoneV), RETURN, NoArg), Pass)
  {
  }

  lemma {:induction false} GenFunctionJumps(g: Gen, n: string, ps: seq<string>, body: seq<Item>)
    ensures var r := GenStmt(g, Function(n, ps, body));
      r.outcome.Pass? ==>
        JumpsWithin(r.gen.instructions, |g.instructions|, |r.gen.instructions|, |g.instructions|, |r.gen.instructions|)
    decreases Function(n, ps, body), 0
  {
    FunctionUnfolds(g, n, ps, body);
    var r := GenStmt(g, Function(n, ps, body));
    var G := |g.instructions|;
    var g1 := g.(functions := Put(g.functions, n, |g.instructions|));
    var e1 := Emit(g1, FUNCTION_START, Num(|ps|));
    var b := GenItems(e1, body);
    GenItemsJumps(e1, body);
    if r.outcome.Pass? {
      GrowsAgree(b.gen, r.gen, G + 1, |b.gen.instructions|);
      GrowsTrans(e1, b.gen, r.gen);
      GrowsAgree(e1, r.gen, G, G + 1);
      JumpsCarry(b.gen.instructions, r.gen.instructions, G + 1, |b.gen.instructions|,
        G + 1, |b.gen.instructions|, G, |r.gen.instructions|);
      JumpsJoin(r.gen.instructions, G, G + 1, |b.gen.instructions|, G, |r.gen.instructions|);
      JumpsJoin(r.gen.instructions, G, |b.gen.instructions|, |r.gen.instructions|, G, |r.gen.instructions|);
    }
  }

  lemma {:induction false} GenIfJumps(g: Gen, c: Expr, t: seq<Item>, f: seq<Item>)
    ensures var r := GenStmt(g, If(c, t, f));
      r.outcome.Pass? ==>
        JumpsWithin(r.gen.instructions, |g.instructions|, |r.gen.instructions|, |g.instructions|, |r.gen.instructions|)
    decreases If(c, t, f), 0
  {
    var r := GenStmt(g, If(c, t, f));
    var a := GenExpr(g, c);
    var e1 := Emit(a.gen, JUMP_IF_FALSE, NoArg);
    var b := GenItems(e1, t);
    if r.outcome.Pass? {
      GenExprNoJumps(g, c);
      GenItemsJumps(e1, t);
      if f == [] {
        LoopShape(|g.instructions|, a.gen, b.gen, b.gen);
      } else {
        var j := Emit(b.gen, JUMP, NoArg);
        var h := Patch(j, |a.gen.instructions|, |j.instructions|);
        GenItemsJumps(h, f);
        IfElseShape(|g.instructions|, a.gen, b.gen, GenItems(h, f).gen);
      }
    }
  }

  lemma {:induction false} GenWhileJumps(g: Gen, c: Expr, body: seq<Item>)
    ensures var r := GenStmt(g, While(c, body));
      r.outcome.Pass? ==>
        JumpsWithin(r.gen.instructions, |g.instructions|, |r.gen.instructions|, |g.instructions|, |r.gen.instructions|)
    decreases While(c, body), 0
  {
    var r := GenStmt(g, While(c, body));
    var a := GenExpr(g, c);
    var e1 := Emit(a.gen, JUMP_IF_FALSE, NoArg);
    var b := GenItems(e1, body);
    if r.outcome.Pass? {
      GenExprNoJumps(g, c);
      GenItemsJumps(e1, body);
      LoopShape(|g.instructions|, a.gen, b.gen, Emit(b.gen, JUMP, Num(|g.instructions|)));
    }
  }

  /** The start expression, the store and load of the loop variable, the end expression and
      the comparison contain no jump. */
  lemma ForHeadNoJumps(G: nat, a: Gen, a1: Gen, g2: Gen, b: Gen, slot: nat)
    requires G <= |a.instructions| && NoJumps(a.instructions, G, |a.instructions|)
    requires a1.instructions == a.instructions
    requires g2 == Emit(Emit(a1, STORE_VAR, Num(slot)), LOAD_VAR, Num(slot))
    requires Grows(g2, b) && NoJumps(b.instructions, |g2.instructions|, |b.instructions|)
    ensures NoJumps(Emit(b, BINARY_OP, Name("<=")).instructions, G, |b.instructions| + 1)
  {
    NoJumpsEmit(a1, G, STORE_VAR, Num(slot));
    NoJumpsEmit(Emit(a1, STORE_VAR, Num(slot)), G, LOAD_VAR, Num(slot));
    NoJumpsGrow(g2, b, G);
    NoJumpsEmit(b, G, BINARY_OP, Name("<="));
  }

  /** The increment's only jump goes back to the loop test. */
  lemma IncrementJumps(c: Gen, slot: nat, loopStart: nat, G: nat)
    requires G <= loopStart <= |c.instructions|
    ensures var h := Increment(c, slot, loopStart);
      JumpsWithin(h.instructions, |c.instructions|, |h.instructions|, G, |h.instructions|)
  {
    var h := Increment(c, slot, loopStart);
    var C := |c.instructions|;
    assert forall k :: C <= k < C + 5 ==> h.instructions[k] == h.instructions[C..][k - C];
  }

  /** A for loop's code, given that its start value, bound and body keep their own jumps in range. */
  lemma ForShape(G: nat, a: Gen, a1: Gen, slot: nat, b: Gen, c: Gen)
    requires G <= |a.instructions| && NoJumps(a.instructions, G, |a.instructions|)
    requires a1.instructions == a.instructions
    requires var g2 := Emit(Emit(a1, STORE_VAR, Num(slot)), LOAD_VAR, Num(slot));
      Grows(g2, b) && NoJumps(b.instructions, |g2.instructions|, |b.instructions|)
    requires var e1 := Emit(Emit(b, BINARY_OP, Name("<=")), JUMP_IF_FALSE, NoArg);
      Grows(e1, c) && JumpsWithin(c.instructions, |e1.instructions|, |c.instructions|, |e1.instructions|, |c.instructions|)
    ensures var h := Increment(c, slot, |Emit(a1, STORE_VAR, Num(slot)).instructions|);
      JumpsWithin(Patch(h, |Emit(b, BINARY_OP, Name("<=")).instructions|, |h.instructions|).instructions,
        G, |h.instructions|, G, |h.instructions|)
  {
    var g2 := Emit(Emit(a1, STORE_VAR, Num(slot)), LOAD_VAR, Num(slot));
    ForHeadNoJumps(G, a, a1, g2, b, slot);
    IncrementJumps(c, slot, |a.instructions| + 1, G);
    var g3 := Emit(b, BINARY_OP, Name("<="));
    LoopShape(G, g3, c, Increment(c, slot, |a.instructions| + 1));
  }

  /** The code a for loop compiles to, named piece by piece. */
  lemma GenForUnfold(g: Gen, v: string, start: Expr, end: Expr, body: seq<Item>)
    ensures var r := GenFor(g, v, start, end, body);
      r.outcome.Pass? ==>
      var a := GenExpr(g, start);
      var slot := |a.gen.variables|;
      var g1 := Emit(a.gen.(variables := Put(a.gen.variables, v, slot)), STORE_VAR, Num(slot));
      var b := GenExpr(Emit(g1, LOAD_VAR, Num(slot)), end);
      var g3 := Emit(b.gen, BINARY_OP, Name("<="));
      var c := GenItems(Emit(g3, JUMP_IF_FALSE, NoArg), body);
      var g8 := Increment(c.gen, slot, |g1.instructions|);
      a.outcome.Pass? && b.outcome.Pass? && c.outcome.Pass? &&
      r.gen == Patch(g8, |g3.instructions|, |g8.instructions|)
  {
  }

  lemma {:induction false} GenForJumps(g: Gen, v: string, start: Expr, end: Expr, body: seq<Item>)
    ensures var r := GenFor(g, v, start, end, body);
      r.outcome.Pass? ==>
        JumpsWithin(r.gen.instructions, |g.instructions|, |r.gen.instructions|, |g.instructions|, |r.gen.instructions|)
    decreases For(v, start, end, body), 0
  {
    var r := GenFor(g, v, start, end, body);
    if r.outcome.Pass? {
      GenForUnfold(g, v, start, end, body);
      var a := GenExpr(g, start);
      var slot := |a.gen.variables|;
      var a1 := a.gen.(variables := Put(a.gen.variables, v, slot));
      var g1 := Emit(a1, STORE_VAR, Num(slot));
      var b := GenExpr(Emit(g1, LOAD_VAR, Num(slot)), end);
      var g3 := Emit(b.gen, BINARY_OP, Name("<="));
      var c := GenItems(Emit(g3, JUMP_IF_FALSE, NoArg), body);
      GenExprNoJumps(g, start);
      GenExprNoJumps(Emit(g1, LOAD_VAR, Num(slot)), end);
      GenItemsJumps(Emit(g3, JUMP_IF_FALSE, NoArg), body);
      ForShape(|g.instructions|, a.gen, a1, slot, b.gen, c.gen);
    }
  }

  lemma {:induction false} GenItemJumps(g: Gen, it: Item)
    ensures var r := GenItem(g, it);
      r.outcome.Pass? ==>
        JumpsWithin(r.gen.instructions, |g.instructions|, |r.gen.instructions|, |g.instructions|, |r.gen.instructions|)
    decreases it
  {
    if it.Node? {
      GenStmtJumps(g, it.stmt);
    }
  }

  lemma {:induction false} GenItemsJumps(g: Gen, items: seq<Item>)
    ensures var r := GenItems(g, items);
      r.outcome.Pass? ==>
        JumpsWithin(r.gen.instructions, |g.instructions|, |r.gen.instructions|, |g.instructions|, |r.gen.instructions|)
    decreases items
  {
    var r := GenItems(g, items);
    if items != [] && r.outcome.Pass? {
      var a := GenItem(g, items[0]);
      GenItemJumps(g, items[0]);
      GenItemsJumps(a.gen, items[1..]);
      var G, A, R := |g.instructions|, |a.gen.instructions|, |r.gen.instructions|;
      GrowsAgree(a.gen, r.gen, G, A);
      JumpsCarry(a.gen.instructions, r.gen.instructions, G, A, G, A, G, R);
      JumpsJoin(r.gen.instructions, G, A, R, G, R);
    }
  }

  /** After a successful generate, every JUMP, JUMP_IF_FALSE and JUMP_IF_TRUE operand is an
      index into the final instruction list. */
  lemma GeneratedJumpsValid(p: Program)
    ensures var r := GenerateProgram(p);
      r.outcome.Pass? ==>
        forall k :: 0 <= k < |r.gen.instructions| && IsJump(r.gen.instructions[k].opcode) ==>
          r.gen.instructions[k].arg.Num? && 0 <= r.gen.instructions[k].arg.n < |r.gen.instructions|
  {
    var r := GenerateProgram(p);
    if r.outcome.Pass? {
      var a := GenItems(EmptyGen, p.statements);
      GenItemsJumps(EmptyGen, p.statements);
      var N := |a.gen.instructions|;
      GrowsAgree(a.gen, r.gen, 0, N);
      JumpsCarry(a.gen.instructions, r.gen.instructions, 0, N, 0, N, 0, N);
    }
  }
}
