/** The stack effect of generated code: a call-free expression leaves exactly one value on the
    VM's stack, and an assignment, print or expression statement leaves the stack as it was. */
module GeneratorStack {
  import opened Wrappers
  import opened Ast
  import opened Values
  import opened Dicts
  import opened Generator

  /** How many values an instruction adds to the stack (a negative number: removes), for the
      opcodes whose effect does not depend on the run. */
  function Effect(op: Opcode): int
  {
    match op
    case LOAD_CONST => 1
    case LOAD_VAR => 1
    case INPUT => 1
    case STORE_VAR => -1
    case BINARY_OP => -1
    case PRINT => -1
    case POP => -1
    case JUMP_IF_FALSE => -1
    case JUMP_IF_TRUE => -1
    case _ => 0
  }

  /** The summed effect of code[i..j], run straight through. */
  function Net(code: seq<Instr>, i: nat, j: nat): int
    requires i <= j <= |code|
    decreases j
  {
    if j == i then 0 else Net(code, i, j - 1) + Effect(code[j - 1].opcode)
  }

  lemma {:induction false} NetSplit(code: seq<Instr>, i: nat, j: nat, k: nat)
    requires i <= j <= k <= |code|
    ensures Net(code, i, k) == Net(code, i, j) + Net(code, j, k)
    decreases k
  {
    if k > j {
      NetSplit(code, i, j, k - 1);
    }
  }

  /** Code that is already emitted keeps its effect when more is appended. */
  lemma {:induction false} NetPrefix(code: seq<Instr>, more: seq<Instr>, i: nat, j: nat)
    requires i <= j <= |code| <= |more| && more[..|code|] == code
    ensures Net(more, i, j) == Net(code, i, j)
    decreases j
  {
    if j > i {
      NetPrefix(code, more, i, j - 1);
      assert more[j - 1] == more[..|code|][j - 1];
    }
  }

  /** One instruction appended after code from i on. */
  lemma NetEmit(g: Gen, i: nat, op: Opcode, arg: Arg)
    requires i <= |g.instructions|
    ensures var h := Emit(g, op, arg);
      Net(h.instructions, i, |h.instructions|) == Net(g.instructions, i, |g.instructions|) + Effect(op)
  {
    var h := Emit(g, op, arg);
    NetPrefix(g.instructions, h.instructions, i, |g.instructions|);
  }

  /** Code from i to the end of b, when b extends a: its effect is a's part plus the rest. */
  lemma NetGrow(a: Gen, b: Gen, i: nat)
    requires Grows(a, b) && i <= |a.instructions|
    ensures Net(b.instructions, i, |b.instructions|) ==
      Net(a.instructions, i, |a.instructions|) + Net(b.instructions, |a.instructions|, |b.instructions|)
  {
    NetSplit(b.instructions, i, |a.instructions|, |b.instructions|);
    NetPrefix(a.instructions, b.instructions, i, |a.instructions|);
  }

  /** A call-free expression compiles to code that pushes exactly one value. */
  lemma {:induction false} ExprPushesOne(g: Gen, e: Expr)
    requires CallFree(e)
    ensures var r := GenExpr(g, e);
      r.outcome.Pass? ==> Net(r.gen.instructions, |g.instructions|, |r.gen.instructions|) == 1
    decreases e
  {
    var G := |g.instructions|;
    match e
    case BinaryOp(l, op, rhs) =>
      var a := GenExpr(g, l);
      ExprPushesOne(g, l);
      if a.outcome.Pass? {
        ExprPushesOne(a.gen, rhs);
        BinaryPushesOne(g, a, GenExpr(a.gen, rhs), op);
      }
    case UnaryOp(op, x) =>
      var a := GenExpr(g, x);
      if a.outcome.Pass? {
        ExprPushesOne(g, x);
        NetEmit(a.gen, G, UNARY_OP, Name(op));
      }
    case Literal(v) =>
      var (pool, k) := PoolAdd(g.constants, LitConst(g.constants, v));
      NetEmit(g.(constants := pool), G, LOAD_CONST, Num(k));
    case Identifier(n) =>
      if HasKey(g.variables, n) {
        NetEmit(g, G, LOAD_VAR, Num(Find(g.variables, n).value));
      }
  }

  /** An assignment, a print and an expression statement each leave the stack as they found
      it, when their expression is call-free. */
  lemma SimpleStatementsBalance(g: Gen, s: Stmt)
    requires s.Assignment? || s.Print? || s.ExpressionStatement?
    requires StmtCallFree(s)
    ensures var r := GenStmt(g, s);
      r.outcome.Pass? ==> Net(r.gen.instructions, |g.instructions|, |r.gen.instructions|) == 0
  {
    ExprPushesOne(g, s.expr);
    match s
    case Assignment(n, e, d) => AssignmentBalance(g, GenExpr(g, e), n, d);
    case Print(e) => ThenBalance(g, GenExpr(g, e), PRINT);
    case ExpressionStatement(e) => ThenBalance(g, GenExpr(g, e), POP);
  }

  /** Two operands that push one value each, then BINARY_OP: one value in all. */
  lemma BinaryPushesOne(g: Gen, a: Emitted, b: Emitted, op: string)
    requires Grows(g, a.gen) && Grows(a.gen, b.gen) && a.outcome.Pass?
    requires Net(a.gen.instructions, |g.instructions|, |a.gen.instructions|) == 1
    requires b.outcome.Pass? ==> Net(b.gen.instructions, |a.gen.instructions|, |b.gen.instructions|) == 1
    ensures b.outcome.Pass? ==>
      var h := Emit(b.gen, BINARY_OP, Name(op));
      Net(h.instructions, |g.instructions|, |h.instructions|) == 1
  {
    if b.outcome.Pass? {
      NetGrow(a.gen, b.gen, |g.instructions|);
      NetEmit(b.gen, |g.instructions|, BINARY_OP, Name(op));
    }
  }

  /** A value pushed, then stored: nothing left on the stack. */
  lemma AssignmentBalance(g: Gen, a: Emitted, n: string, d: bool)
    requires Grows(g, a.gen)
    requires a.outcome.Pass? ==> Net(a.gen.instructions, |g.instructions|, |a.gen.instructions|) == 1
    ensures var r := GenAssignment(a, g, n, d);
      r.outcome.Pass? ==> Net(r.gen.instructions, |g.instructions|, |r.gen.instructions|) == 0
  {
    if a.outcome.Pass? {
      if d {
        var slot := |a.gen.variables|;
        NetEmit(a.gen.(variables := Put(a.gen.variables, n, slot)), |g.instructions|, STORE_VAR, Num(slot));
      } else if HasKey(a.gen.variables, n) {
        NetEmit(a.gen, |g.instructions|, STORE_VAR, Num(Find(a.gen.variables, n).value));
      }
    }
  }

  /** A value pushed, then consumed by PRINT or POP: nothing left on the stack. */
  lemma ThenBalance(g: Gen, a: Emitted, op: Opcode)
    requires Grows(g, a.gen) && Effect(op) == -1
    requires a.outcome.Pass? ==> Net(a.gen.instructions, |g.instructions|, |a.gen.instructions|) == 1
    ensures var r := GenThen(g, a, op);
      r.outcome.Pass? ==> Net(r.gen.instructions, |g.instructions|, |r.gen.instructions|) == 0
  {
    if a.outcome.Pass? {
      NetEmit(a.gen, |g.instructions|, op, NoArg);
    }
  }
}
