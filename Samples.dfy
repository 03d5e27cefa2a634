/** A worked program for the compiler's execute: `print 1` followed by `print 1 / 0`. Its code,
    and its run up to the division, which raises after the first line was printed. */
module Samples {
  import opened Wrappers
  import opened Values
  import opened Ast
  import opened Generator
  import opened Machine
  import opened MachineProps

  const PrintThenDivide := Program([
    Node(Print(Literal(IntLit(1)))),
    Node(Print(BinaryOp(Literal(IntLit(1)), "/", Literal(IntLit(0)))))])

  /** The code generate emits for it: the constants 1 and 0 are pooled once each. */
  const DivideCode := [
    Instr(LOAD_CONST, Num(0), Line), Instr(PRINT, NoArg, Line),
    Instr(LOAD_CONST, Num(0), Line), Instr(LOAD_CONST, Num(1), Line),
    Instr(BINARY_OP, Name("/"), Line), Instr(PRINT, NoArg, Line), Instr(HALT, NoArg, Line)]

  const DividePool := [IntV(1), IntV(0)]

  /** `print 1` into an empty generator. */
  lemma FirstPrint()
    ensures GenItem(EmptyGen, PrintThenDivide.statements[0]) ==
      Emitted(Gen(DivideCode[..2], [IntV(1)], [], []), Pass)
  {
    assert PoolIndex([], IntV(1)) == None;
    assert GenExpr(EmptyGen, Literal(IntLit(1))) == Emitted(Gen(DivideCode[..1], [IntV(1)], [], []), Pass);
  }

  /** The constant 1 is found in the pool, the constant 0 is added to it. */
  lemma DivisionOperands(g: Gen)
    requires g == Gen(DivideCode[..2], [IntV(1)], [], [])
    ensures GenExpr(g, Literal(IntLit(1))) == Emitted(Gen(DivideCode[..3], [IntV(1)], [], []), Pass)
    ensures GenExpr(Gen(DivideCode[..3], [IntV(1)], [], []), Literal(IntLit(0))) ==
      Emitted(Gen(DivideCode[..4], DividePool, [], []), Pass)
  {
    assert PoolIndex([IntV(1)], IntV(1)) == Some(0);
    assert PoolIndex([IntV(1)], IntV(0)) == None by {
      assert !PyEq(IntV(1), IntV(0));
      assert PoolIndex([IntV(1)][1..], IntV(0)) == None;
    }
  }

  /** `print 1 / 0` after the first statement. */
  lemma SecondPrint(g: Gen)
    requires g == Gen(DivideCode[..2], [IntV(1)], [], [])
    ensures GenItem(g, PrintThenDivide.statements[1]) == Emitted(Gen(DivideCode[..6], DividePool, [], []), Pass)
  {
    DivisionOperands(g);
    var e := BinaryOp(Literal(IntLit(1)), "/", Literal(IntLit(0)));
    assert GenExpr(g, e) == Emitted(Gen(DivideCode[..5], DividePool, [], []), Pass);
  }

  lemma PrintThenDivideGenerates()
    ensures GenerateProgram(PrintThenDivide) == Emitted(Gen(DivideCode, DividePool, [], []), Pass)
  {
    var items := PrintThenDivide.statements;
    var g1 := Gen(DivideCode[..2], [IntV(1)], [], []);
    var g2 := Gen(DivideCode[..6], DividePool, [], []);
    FirstPrint();
    SecondPrint(g1);
    assert GenItems(g2, items[1..][1..]) == Emitted(g2, Pass);
    assert GenItems(g1, items[1..]) == Emitted(g2, Pass);
    assert GenItems(EmptyGen, items) == Emitted(g2, Pass);
  }

  /** The first two instructions print "1". */
  lemma PrintOneRuns(m: VmState)
    requires m.instructions == DivideCode && m.constants == DividePool
    requires m.pc == Num(0) && m.stack == [] && m.output == [] && !m.halted
    ensures Run(m, 0, 10000) == Run(m.(output := ["1"], pc := Num(2)), 2, 10000)
  {
    LoadOneRuns(m);
    PrintRuns(m.(stack := [IntV(1)], pc := Num(1)));
  }

  /** LOAD_CONST 0 pushes the 1. */
  lemma LoadOneRuns(m: VmState)
    requires m.instructions == DivideCode && m.constants == DividePool
    requires m.pc == Num(0) && m.stack == [] && !m.halted
    ensures Run(m, 0, 10000) == Run(m.(stack := [IntV(1)], pc := Num(1)), 1, 10000)
  {
    var m1 := m.(stack := [IntV(1)], pc := Num(1));
    LoadConstPushes(m, 0, 0);
    assert m.stack + [m.constants[0]] == [IntV(1)];
    assert Step(m, DivideCode[0]) == Exec(m1, Pass);
    RunStep(m, 0, 10000, 0, DivideCode[0]);
  }

  /** PRINT pops the 1 and writes "1". */
  lemma PrintRuns(m1: VmState)
    requires m1.instructions == DivideCode && m1.constants == DividePool
    requires m1.pc == Num(1) && m1.stack == [IntV(1)] && m1.output == [] && !m1.halted
    ensures Run(m1, 1, 10000) == Run(m1.(stack := [], output := ["1"], pc := Num(2)), 2, 10000)
  {
    var m2 := m1.(stack := [], output := ["1"], pc := Num(2));
    PrintAppends(m1, [], IntV(1), 1);
    assert m1.output + [Str(IntV(1))] == ["1"];
    assert Step(m1, DivideCode[1]) == Exec(m2, Pass);
    RunStep(m1, 1, 10000, 1, DivideCode[1]);
  }

  /** The next two push both operands. */
  lemma OperandsRun(m: VmState)
    requires m.instructions == DivideCode && m.constants == DividePool
    requires m.pc == Num(2) && m.stack == [] && !m.halted
    ensures Run(m, 2, 10000) == Run(m.(stack := DividePool, pc := Num(4)), 4, 10000)
  {
    var m3 := m.(stack := [IntV(1)], pc := Num(3));
    var m4 := m.(stack := DividePool, pc := Num(4));
    LoadConstPushes(m, 0, 2);
    assert m.stack + [m.constants[0]] == [IntV(1)];
    assert Step(m, DivideCode[2]) == Exec(m3, Pass);
    RunStep(m, 2, 10000, 2, DivideCode[2]);
    LoadConstPushes(m3, 1, 3);
    assert m3.stack + [m3.constants[1]] == DividePool;
    assert Step(m3, DivideCode[3]) == Exec(m4, Pass);
    RunStep(m3, 3, 10000, 3, DivideCode[3]);
  }

  /** The division pops both operands and raises. */
  lemma DivisionStops(m: VmState)
    requires m.instructions == DivideCode && m.constants == DividePool
    requires m.pc == Num(4) && m.stack == DividePool && !m.halted
    ensures Run(m, 4, 10000) == (m.(stack := []), Err(BinaryFailure(IntV(1), "/", IntV(0), "Division by zero")))
  {
    assert DivideCode[4] == Instr(BINARY_OP, Name("/"), Line);
    DivideByZero(m, [], IntV(1), IntV(0));
    RunStops(m, 4, 10000, 4, DivideCode[4]);
  }

  /** Starting afresh, the run prints "1" and then stops at the division. */
  lemma DivideRun(m: VmState)
    requires m.instructions == DivideCode && m.constants == DividePool
    requires m.pc == Num(0) && m.stack == [] && m.output == [] && !m.halted
    ensures Run(m, 0, 10000).0.output == ["1"]
    ensures Run(m, 0, 10000).1 == Err(BinaryFailure(IntV(1), "/", IntV(0), "Division by zero"))
  {
    var m2 := m.(output := ["1"], pc := Num(2));
    var m4 := m2.(stack := DividePool, pc := Num(4));
    PrintOneRuns(m);
    OperandsRun(m2);
    DivisionStops(m4);
    var r := Run(m4, 4, 10000);
    assert Run(m, 0, 10000) == r;
  }
}
