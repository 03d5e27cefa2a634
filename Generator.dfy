/** The bytecode generator (src/bytecode_generator.py): a visitor that appends instructions,
    keeps a constant pool without duplicates (under Python's ==), hands out variable slots and
    backpatches forward jumps in place. The pure functions GenExpr, GenStmt and GenItems state
    what each visit does to the generator's state; the class BytecodeGenerator performs the
    same visits step by step and is proved to agree with them. */
module Generator {
  import opened Wrappers
  import opened Text
  import opened Ast
  import opened Values
  import opened Dicts

  /** The opcodes the generator and the machine know; any other opcode text is Other, whose
      name is never one of KnownOpcodes (see WellFormedOpcode). */
  datatype Opcode =
    | LOAD_CONST | LOAD_VAR | STORE_VAR | BINARY_OP | UNARY_OP
    | JUMP | JUMP_IF_FALSE | JUMP_IF_TRUE | PRINT | INPUT | POP | HALT
    | FUNCTION_START | RETURN | CALL | CALL_BUILTIN
    | Other(name: string)

  /** An instruction operand: Python's None, an integer, or a name or operator. */
  datatype Arg = NoArg | Num(n: int) | Name(s: string)

  /** BytecodeInstruction. */
  datatype Instr = Instr(opcode: Opcode, arg: Arg, line: int)

  function OpcodeName(op: Opcode): string
  {
    match op
    case LOAD_CONST => "LOAD_CONST"
    case LOAD_VAR => "LOAD_VAR"
    case STORE_VAR => "STORE_VAR"
    case BINARY_OP => "BINARY_OP"
    case UNARY_OP => "UNARY_OP"
    case JUMP => "JUMP"
    case JUMP_IF_FALSE => "JUMP_IF_FALSE"
    case JUMP_IF_TRUE => "JUMP_IF_TRUE"
    case PRINT => "PRINT"
    case INPUT => "INPUT"
    case POP => "POP"
    case HALT => "HALT"
    case FUNCTION_START => "FUNCTION_START"
    case RETURN => "RETURN"
    case CALL => "CALL"
    case CALL_BUILTIN => "CALL_BUILTIN"
    case Other(name) => name
  }

  /** The opcode texts with a constructor of their own. */
  const KnownOpcodes: set<string> := {
    "LOAD_CONST", "LOAD_VAR", "STORE_VAR", "BINARY_OP", "UNARY_OP", "JUMP", "JUMP_IF_FALSE",
    "JUMP_IF_TRUE", "PRINT", "INPUT", "POP", "HALT", "FUNCTION_START", "RETURN", "CALL",
    "CALL_BUILTIN"}

  /** Other stands only for opcode text the machine does not know. */
  predicate WellFormedOpcode(op: Opcode)
  {
    op.Other? ==> op.name !in KnownOpcodes
  }

  /** str() of an operand. */
  function ArgStr(a: Arg): string
  {
    match a
    case NoArg => "None"
    case Num(n) => IntStr(n)
    case Name(s) => s
  }

  /** BytecodeInstruction.__str__: the opcode, then the operand when there is one. */
  function InstrStr(i: Instr): (s: string)
    ensures |OpcodeName(i.opcode)| <= |s| && s[..|OpcodeName(i.opcode)|] == OpcodeName(i.opcode)
    ensures s == OpcodeName(i.opcode) <==> i.arg == NoArg
    ensures i.arg != NoArg ==> s[|OpcodeName(i.opcode)|..] == " " + ArgStr(i.arg)
  {
    if i.arg == NoArg then OpcodeName(i.opcode) else OpcodeName(i.opcode) + " " + ArgStr(i.arg)
  }

  /** The generator's state: instructions, constants, variables and functions. */
  datatype Gen = Gen(instructions: seq<Instr>, constants: seq<Value>, variables: Dict, functions: Dict)

  /** The state after a visit, and whether the visit raised. */
  datatype Emitted = Emitted(gen: Gen, outcome: Outcome)

  /** `self.current_line`, which nothing changes after construction. */
  const Line := 1

  const EmptyGen := Gen([], [], [], [])

  /** h continues g: the instructions and constants of g are a prefix of those of h. */
  predicate Grows(g: Gen, h: Gen)
  {
    |g.instructions| <= |h.instructions| && h.instructions[..|g.instructions|] == g.instructions &&
    |g.constants| <= |h.constants| && h.constants[..|g.constants|] == g.constants
  }

  lemma GrowsTrans(a: Gen, b: Gen, c: Gen)
    requires Grows(a, b) && Grows(b, c)
    ensures Grows(a, c)
  {
    assert c.instructions[..|a.instructions|] == c.instructions[..|b.instructions|][..|a.instructions|];
    assert c.constants[..|a.constants|] == c.constants[..|b.constants|][..|a.constants|];
  }

  /** add_instruction. */
  function Emit(g: Gen, op: Opcode, arg: Arg): (h: Gen)
    ensures Grows(g, h)
    ensures |h.instructions| == |g.instructions| + 1
  {
    var h := g.(instructions := g.instructions + [Instr(op, arg, Line)]);
    assert h.instructions[..|g.instructions|] == g.instructions;
    h
  }

  /** `self.instructions[at].arg = target`. */
  function Patch(g: Gen, at: nat, target: nat): (h: Gen)
    requires at < |g.instructions|
  {
    g.(instructions := g.instructions[at := g.instructions[at].(arg := Num(target))])
  }

  /** The first index of the pool holding a value equal to v (list.index). */
  function PoolIndex(pool: seq<Value>, v: Value): (r: Option<nat>)
    ensures r.Some? ==> r.value < |pool| && PyEq(pool[r.value], v)
    ensures r.Some? ==> forall j :: 0 <= j < r.value ==> !PyEq(pool[j], v)
    ensures r.None? ==> forall j :: 0 <= j < |pool| ==> !PyEq(pool[j], v)
  {
    if pool == [] then None
    else if PyEq(pool[0], v) then Some(0)
    else match PoolIndex(pool[1..], v)
      case Some(k) => Some(k + 1)
      case None => None
  }

  /** add_constant: append v unless an equal value is already there, and return the index of
      the first equal value. */
  function PoolAdd(pool: seq<Value>, v: Value): (r: (seq<Value>, nat))
    ensures r.1 < |r.0| && PyEq(r.0[r.1], v)
    ensures forall j :: 0 <= j < r.1 ==> !PyEq(r.0[j], v)
    ensures PoolIndex(pool, v).Some? ==> r.0 == pool
    ensures PoolIndex(pool, v).None? ==> r.0 == pool + [v] && r.1 == |pool|
  {
    match PoolIndex(pool, v)
    case Some(k) => (pool, k)
    case None => assert PyEq(v, v); (pool + [v], |pool|)
  }

  /** The value a LiteralNode puts in the pool. A FunctionCallNode object is a new object, so
      it is equal to nothing already in the pool. */
  function LitConst(pool: seq<Value>, v: LitValue): Value
  {
    match v
    case IntLit(n) => IntV(n)
    case BoolLit(b) => BoolV(b)
    case NodeLit(e) => NodeV(e, |pool|)
  }

  /** `add_instruction('LOAD_CONST', add_constant(v))`. */
  function LoadConst(g: Gen, v: Value): (h: Gen)
    ensures Grows(g, h)
    ensures |h.instructions| == |g.instructions| + 1
  {
    var (pool, k) := PoolAdd(g.constants, v);
    var h := Emit(g.(constants := pool), LOAD_CONST, Num(k));
    assert h.instructions[..|g.instructions|] == g.instructions;
    assert h.constants[..|g.constants|] == g.constants;
    h
  }

  function NameError(name: string): string
  {
    "Variable '" + name + "' not defined"
  }

  /** What Python raises when the visitor calls accept on a string. */
  const NoAccept := "'str' object has no attribute 'accept'"

  /** visit_binary_op, visit_unary_op, visit_literal, visit_identifier, visit_function_call. */
  function GenExpr(g: Gen, e: Expr): (r: Emitted)
    ensures Grows(g, r.gen)
    ensures r.gen.variables == g.variables && r.gen.functions == g.functions
    decreases e
  {
    match e
    case BinaryOp(l, op, rhs) =>
      var a := GenExpr(g, l);
      if a.outcome.Fail? then a
      else
        var b := GenExpr(a.gen, rhs);
        GrowsTrans(g, a.gen, b.gen);
        if b.outcome.Fail? then b
        else
          GrowsTrans(g, b.gen, Emit(b.gen, BINARY_OP, Name(op)));
          Emitted(Emit(b.gen, BINARY_OP, Name(op)), Pass)
    case UnaryOp(op, x) =>
      var a := GenExpr(g, x);
      if a.outcome.Fail? then a
      else
        GrowsTrans(g, a.gen, Emit(a.gen, UNARY_OP, Name(op)));
        Emitted(Emit(a.gen, UNARY_OP, Name(op)), Pass)
    case Literal(v) => Emitted(LoadConst(g, LitConst(g.constants, v)), Pass)
    case Identifier(n) =>
      (match Find(g.variables, n)
       case Some(k) => Emitted(Emit(g, LOAD_VAR, Num(k)), Pass)
       case None => Emitted(g, Fail(NameError(n))))
    case FunctionCall(n, args) =>
      var a := GenArgs(g, args);
      if a.outcome.Fail? then a
      else
        var op := match Find(g.functions, n)
          case Some(addr) => Instr(CALL, Num(addr), Line)
          case None => Instr(CALL_BUILTIN, Name(n), Line);
        GrowsTrans(g, a.gen, Emit(a.gen, op.opcode, op.arg));
        Emitted(Emit(a.gen, op.opcode, op.arg), Pass)
  }

  /** The arguments of a call, left to right. */
  function GenArgs(g: Gen, args: seq<Expr>): (r: Emitted)
    ensures Grows(g, r.gen)
    ensures r.gen.variables == g.variables && r.gen.functions == g.functions
    decreases args
  {
    if args == [] then Emitted(g, Pass)
    else
      var a := GenExpr(g, args[0]);
      if a.outcome.Fail? then a
      else
        var b := GenArgs(a.gen, args[1..]);
        GrowsTrans(g, a.gen, b.gen);
        b
  }

  /** The visit methods of the eight statement kinds. */
  function GenStmt(g: Gen, s: Stmt): (r: Emitted)
    ensures Grows(g, r.gen)
    decreases s
  {
    match s
    case Assignment(n, e, d) => GenAssignment(GenExpr(g, e), g, n, d)
    case If(c, t, f) =>
      var a := GenExpr(g, c);
      if a.outcome.Fail? then a
      else
        var elseLabel := |a.gen.instructions|;
        var b := GenItems(Emit(a.gen, JUMP_IF_FALSE, NoArg), t);
        GrowsTrans(a.gen, Emit(a.gen, JUMP_IF_FALSE, NoArg), b.gen);
        GrowsTrans(g, a.gen, b.gen);
        if b.outcome.Fail? then b
        else if f != [] then
          var endLabel := |b.gen.instructions|;
          var j := Emit(b.gen, JUMP, NoArg);
          var h := Patch(j, elseLabel, |j.instructions|);
          var c := GenItems(h, f);
          var z := Patch(c.gen, endLabel, |c.gen.instructions|);
          PatchGrows(g, a.gen, b.gen, j, elseLabel, |j.instructions|);
          GrowsTrans(g, h, c.gen);
          if c.outcome.Fail? then c
          else
            PatchAfter(g, c.gen, endLabel, |c.gen.instructions|);
            Emitted(z, Pass)
        else
          PatchAfter(g, b.gen, elseLabel, |b.gen.instructions|);
          Emitted(Patch(b.gen, elseLabel, |b.gen.instructions|), Pass)
    case While(c, body) =>
      var loopStart := |g.instructions|;
      var a := GenExpr(g, c);
      if a.outcome.Fail? then a
      else
        var exitLabel := |a.gen.instructions|;
        var b := GenItems(Emit(a.gen, JUMP_IF_FALSE, NoArg), body);
        GrowsTrans(a.gen, Emit(a.gen, JUMP_IF_FALSE, NoArg), b.gen);
        GrowsTrans(g, a.gen, b.gen);
        if b.outcome.Fail? then b
        else
          var j := Emit(b.gen, JUMP, Num(loopStart));
          GrowsTrans(g, b.gen, j);
          PatchAfter(g, j, exitLabel, |j.instructions|);
          Emitted(Patch(j, exitLabel, |j.instructions|), Pass)
    case For(v, start, end, body) => GenFor(g, v, start, end, body)
    case Function(n, ps, body) =>
      var g1 := g.(functions := Put(g.functions, n, |g.instructions|));
      var b := GenItems(Emit(g1, FUNCTION_START, Num(|ps|)), body);
      GrowsTrans(g1, Emit(g1, FUNCTION_START, Num(|ps|)), b.gen);
      if b.outcome.Fail? then b
      else
        GrowsTrans(g, b.gen, Emit(LoadConst(b.gen, NoneV), RETURN, NoArg));
        Emitted(Emit(LoadConst(b.gen, NoneV), RETURN, NoArg), Pass)
    case Return(value) =>
      (match value
       case Some(e) =>
         var a := GenExpr(g, e);
         if a.outcome.Fail? then a
         else
           GrowsTrans(g, a.gen, Emit(a.gen, RETURN, NoArg));
           Emitted(Emit(a.gen, RETURN, NoArg), Pass)
       case None =>
         GrowsTrans(g, LoadConst(g, NoneV), Emit(LoadConst(g, NoneV), RETURN, NoArg));
         Emitted(Emit(LoadConst(g, NoneV), RETURN, NoArg), Pass))
    case Print(e) => GenThen(g, GenExpr(g, e), PRINT)
    case ExpressionStatement(e) => GenThen(g, GenExpr(g, e), POP)
  }

  /** An expression's code followed by one instruction without operand. */
  function GenThen(g: Gen, a: Emitted, op: Opcode): (r: Emitted)
    requires Grows(g, a.gen)
    ensures Grows(g, r.gen)
  {
    if a.outcome.Fail? then a
    else
      GrowsTrans(g, a.gen, Emit(a.gen, op, NoArg));
      Emitted(Emit(a.gen, op, NoArg), Pass)
  }

  /** visit_assignment after its expression: a declaration takes slot len(variables) (taken
      before the name is bound), an assignment the slot its name already has. */
  function GenAssignment(a: Emitted, g: Gen, n: string, d: bool): (r: Emitted)
    requires Grows(g, a.gen)
    ensures Grows(g, r.gen)
  {
    if a.outcome.Fail? then a
    else if d then
      var slot := |a.gen.variables|;
      var h := Emit(a.gen.(variables := Put(a.gen.variables, n, slot)), STORE_VAR, Num(slot));
      assert Grows(a.gen, h);
      GrowsTrans(g, a.gen, h);
      Emitted(h, Pass)
    else
      match Find(a.gen.variables, n)
      case Some(k) =>
        GrowsTrans(g, a.gen, Emit(a.gen, STORE_VAR, Num(k)));
        Emitted(Emit(a.gen, STORE_VAR, Num(k)), Pass)
      case None => Emitted(a.gen, Fail(NameError(n)))
  }

  /** visit_for. */
  function GenFor(g: Gen, v: string, start: Expr, end: Expr, body: seq<Item>): (r: Emitted)
    ensures Grows(g, r.gen)
    decreases For(v, start, end, body), 1
  {
    var a := GenExpr(g, start);
    if a.outcome.Fail? then a
    else
      var slot := |a.gen.variables|;
      var g1 := Emit(a.gen.(variables := Put(a.gen.variables, v, slot)), STORE_VAR, Num(slot));
      assert Grows(a.gen, g1);
      var r := GenForLoop(g1, v, start, end, body, slot);
      GrowsTrans(a.gen, g1, r.gen);
      GrowsTrans(g, a.gen, r.gen);
      r
  }

  /** visit_for from the loop test on, once the start value is stored in the slot of v. */
  function GenForLoop(g1: Gen, v: string, start: Expr, end: Expr, body: seq<Item>, slot: nat): (r: Emitted)
    ensures Grows(g1, r.gen)
    decreases For(v, start, end, body), 0
  {
    var loopStart := |g1.instructions|;
    var b := GenExpr(Emit(g1, LOAD_VAR, Num(slot)), end);
    GrowsTrans(g1, Emit(g1, LOAD_VAR, Num(slot)), b.gen);
    if b.outcome.Fail? then b
    else
      var g3 := Emit(b.gen, BINARY_OP, Name("<="));
      var exitLabel := |g3.instructions|;
      var c := GenItems(Emit(g3, JUMP_IF_FALSE, NoArg), body);
      GrowsTrans(g3, Emit(g3, JUMP_IF_FALSE, NoArg), c.gen);
      GrowsTrans(b.gen, g3, c.gen);
      GrowsTrans(g1, b.gen, c.gen);
      if c.outcome.Fail? then c
      else
        var g8 := Increment(c.gen, slot, loopStart);
        GrowsTrans(g1, c.gen, g8);
        PatchAfter(g1, g8, exitLabel, |g8.instructions|);
        Emitted(Patch(g8, exitLabel, |g8.instructions|), Pass)
  }

  /** The end of a for loop's body: `v = v + 1`, then the jump back to the test. */
  function Increment(g: Gen, slot: nat, loopStart: nat): (h: Gen)
    ensures Grows(g, h)
    ensures |h.instructions| == |g.instructions| + 5
    ensures h.instructions[|g.instructions|..] == [
      Instr(LOAD_VAR, Num(slot), Line), Instr(LOAD_CONST, Num(PoolAdd(g.constants, IntV(1)).1), Line),
      Instr(BINARY_OP, Name("+"), Line), Instr(STORE_VAR, Num(slot), Line), Instr(JUMP, Num(loopStart), Line)]
    ensures h.constants == PoolAdd(g.constants, IntV(1)).0
  {
    var g4 := Emit(g, LOAD_VAR, Num(slot));
    var g5 := LoadConst(g4, IntV(1));
    var g6 := Emit(g5, BINARY_OP, Name("+"));
    var g7 := Emit(g6, STORE_VAR, Num(slot));
    var g8 := Emit(g7, JUMP, Num(loopStart));
    GrowsTrans(g, g4, g5);
    GrowsTrans(g, g5, g6);
    GrowsTrans(g, g6, g7);
    GrowsTrans(g, g7, g8);
    g8
  }

  /** `if statement: statement.accept(self)` for one entry of a block: None (and an empty
      string) is skipped, a statement is visited, and any other string raises. */
  function GenItem(g: Gen, it: Item): (r: Emitted)
    ensures Grows(g, r.gen)
    decreases it
  {
    match it
    case Nothing => Emitted(g, Pass)
    case Text(run) => if run == "" then Emitted(g, Pass) else Emitted(g, Fail(NoAccept))
    case Node(s) => GenStmt(g, s)
  }

  /** A block: its entries in order, stopping at the first that raises. */
  function GenItems(g: Gen, items: seq<Item>): (r: Emitted)
    ensures Grows(g, r.gen)
    decreases items
  {
    if items == [] then Emitted(g, Pass)
    else
      var a := GenItem(g, items[0]);
      if a.outcome.Fail? then a
      else
        var b := GenItems(a.gen, items[1..]);
        GrowsTrans(g, a.gen, b.gen);
        b
  }

  /** Patching at an index past g's instructions keeps g a prefix. */
  lemma PatchAfter(g: Gen, h: Gen, at: nat, target: nat)
    requires Grows(g, h) && |g.instructions| <= at < |h.instructions|
    ensures Grows(g, Patch(h, at, target))
  {
    assert Patch(h, at, target).instructions[..|g.instructions|] == h.instructions[..|g.instructions|];
  }

  /** The else-label patch in visit_if, made after the jump over the else block. */
  lemma PatchGrows(g: Gen, a: Gen, b: Gen, j: Gen, at: nat, target: nat)
    requires Grows(g, a) && Grows(a, b) && Grows(b, j) && at == |a.instructions| < |j.instructions|
    ensures Grows(g, Patch(j, at, target))
  {
    GrowsTrans(g, a, b);
    GrowsTrans(g, b, j);
    PatchAfter(g, j, at, target);
  }

  /** generate: a fresh state, the program's statements, then HALT. */
  function GenerateProgram(p: Program): (r: Emitted)
    ensures r.outcome.Pass? ==> |r.gen.instructions| > 0 && r.gen.instructions[|r.gen.instructions| - 1] == Instr(HALT, NoArg, Line)
  {
    var a := GenItems(EmptyGen, p.statements);
    if a.outcome.Fail? then a else Emitted(Emit(a.gen, HALT, NoArg), Pass)
  }

  // ---------------------------------------------------------------------------------------
  // get_bytecode_listing

  /** repr() of a pool value. A FunctionCallNode object has no repr of its own, so Python
      prints its class and address; the address is not modelled. */
  function Repr(v: Value): (s: string)
    ensures v.StrV? ==> |s| == |v.s| + 2 && s[0] == '\'' == s[|s| - 1] && s[1..|s| - 1] == v.s
    ensures v.NodeV? ==> s == "<src.ast_nodes.FunctionCallNode object>"
    ensures !v.StrV? && !v.NodeV? ==> s == Str(v)
  {
    match v
    case StrV(s) => "'" + s + "'"
    case NodeV(_, _) => "<src.ast_nodes.FunctionCallNode object>"
    case _ => Str(v)
  }

  /** The pool entry of a literal is listed as its text, except that a FunctionCallNode
      object shows as an object, not as its __str__. */
  lemma LiteralRepr(pool: seq<Value>, v: LitValue)
    ensures Repr(LitConst(pool, v)) ==
      if v.NodeLit? then "<src.ast_nodes.FunctionCallNode object>" else LitStr(v)
  {
  }

  /** `f"{i:3d}"`: right-aligned in three columns. */
  function Pad3(s: string): (r: string)
    ensures |r| == if |s| < 3 then 3 else |s|
    decreases 3 - |s|
  {
    if |s| >= 3 then s else Pad3(" " + s)
  }

  function ConstantLines(pool: seq<Value>, from: nat): (r: seq<string>)
    ensures |r| == |pool|
    decreases |pool|
  {
    if pool == [] then [] else [NatStr(from) + ": " + Repr(pool[0])] + ConstantLines(pool[1..], from + 1)
  }

  function VariableLines(d: Dict): (r: seq<string>)
    ensures |r| == |d|
  {
    if d == [] then [] else [NatStr(d[0].1) + ": " + d[0].0] + VariableLines(d[1..])
  }

  function FunctionLines(d: Dict): (r: seq<string>)
    ensures |r| == |d|
  {
    if d == [] then [] else [d[0].0 + ": " + NatStr(d[0].1)] + FunctionLines(d[1..])
  }

  function InstructionLines(code: seq<Instr>, from: nat): (r: seq<string>)
    ensures |r| == |code|
    decreases |code|
  {
    if code == [] then [] else [Pad3(NatStr(from)) + ": " + InstrStr(code[0])] + InstructionLines(code[1..], from + 1)
  }

  /** The lines of the listing: four headers, each followed by its entries. */
  function ListingLines(g: Gen): (r: seq<string>)
    ensures |r| == 4 + |g.constants| + |g.variables| + |g.functions| + |g.instructions|
    ensures r[0] == "=== CONSTANTS ==="
  {
    ["=== CONSTANTS ==="] + ConstantLines(g.constants, 0) +
    ["\n=== VARIABLES ==="] + VariableLines(g.variables) +
    ["\n=== FUNCTIONS ==="] + FunctionLines(g.functions) +
    ["\n=== BYTECODE ==="] + InstructionLines(g.instructions, 0)
  }

  function Listing(g: Gen): string
  {
    Join(ListingLines(g), "\n")
  }

  // ---------------------------------------------------------------------------------------
  // The generator object

  class BytecodeGenerator {
    var instructions: seq<Instr>
    var constants: seq<Value>
    var variables: Dict
    var functions: Dict

    function State(): Gen
      reads this
    {
      Gen(instructions, constants, variables, functions)
    }

    constructor ()
      ensures State() == EmptyGen
    {
      instructions := [];
      constants := [];
      variables := [];
      functions := [];
    }

    /** add_instruction: append, and return the index of the new instruction. */
    method AddInstruction(op: Opcode, arg: Arg) returns (index: nat)
      modifies this
      ensures State() == Emit(old(State()), op, arg)
      ensures index == |old(instructions)| && instructions[index] == Instr(op, arg, Line)
    {
      instructions := instructions + [Instr(op, arg, Line)];
      index := |instructions| - 1;
    }

    /** add_constant. */
    method AddConstant(v: Value) returns (index: nat)
      modifies this
      ensures (constants, index) == PoolAdd(old(constants), v)
      ensures instructions == old(instructions) && variables == old(variables) && functions == old(functions)
    {
      var i := 0;
      while i < |constants| && !PyEq(constants[i], v)
        invariant 0 <= i <= |constants|
        invariant forall j :: 0 <= j < i ==> !PyEq(constants[j], v)
      {
        i := i + 1;
      }
      if i == |constants| {
        constants := constants + [v];
      }
      index := i;
      PoolIndexFirst(old(constants), v, i);
    }

    /** `self.instructions[at].arg = target`. */
    method Backpatch(at: nat, target: nat)
      requires at < |instructions|
      modifies this
      ensures State() == Patch(old(State()), at, target)
    {
      instructions := instructions[at := instructions[at].(arg := Num(target))];
    }

    method VisitExpr(e: Expr) returns (out: Outcome)
      modifies this
      ensures Emitted(State(), out) == GenExpr(old(State()), e)
      decreases e
    {
      match e
      case BinaryOp(l, op, rhs) =>
        out := VisitExpr(l);
        if out.Fail? { return; }
        out := VisitExpr(rhs);
        if out.Fail? { return; }
        var _ := AddInstruction(BINARY_OP, Name(op));
      case UnaryOp(op, x) =>
        out := VisitExpr(x);
        if out.Fail? { return; }
        var _ := AddInstruction(UNARY_OP, Name(op));
      case Literal(v) =>
        var k := AddConstant(LitConst(constants, v));
        var _ := AddInstruction(LOAD_CONST, Num(k));
        out := Pass;
      case Identifier(n) =>
        match Find(variables, n) {
          case Some(k) =>
            var _ := AddInstruction(LOAD_VAR, Num(k));
            out := Pass;
          case None =>
            out := Fail(NameError(n));
        }
      case FunctionCall(n, args) =>
        out := VisitArgs(args);
        if out.Fail? { return; }
        match Find(functions, n) {
          case Some(addr) =>
            var _ := AddInstruction(CALL, Num(addr));
          case None =>
            var _ := AddInstruction(CALL_BUILTIN, Name(n));
        }
    }

    method VisitArgs(args: seq<Expr>) returns (out: Outcome)
      modifies this
      ensures Emitted(State(), out) == GenArgs(old(State()), args)
      decreases args
    {
      var i := 0;
      out := Pass;
      while i < |args|
        invariant 0 <= i <= |args|
        invariant GenArgs(old(State()), args) == GenArgs(State(), args[i..])
        invariant out == Pass
      {
        assert args[i..][0] == args[i] && args[i..][1..] == args[i + 1..];
        ghost var before := State();
        out := VisitExpr(args[i]);
        if out.Fail? {
          assert GenArgs(before, args[i..]) == Emitted(State(), out);
          return;
        }
        i := i + 1;
      }
      assert args[i..] == [];
    }

    /** The loop `for statement in ...: if statement: statement.accept(self)`. */
    method VisitBlock(items: seq<Item>) returns (out: Outcome)
      modifies this
      ensures Emitted(State(), out) == GenItems(old(State()), items)
      decreases items
    {
      var i := 0;
      out := Pass;
      while i < |items|
        invariant 0 <= i <= |items|
        invariant GenItems(old(State()), items) == GenItems(State(), items[i..])
        invariant out == Pass
      {
        assert items[i..][0] == items[i] && items[i..][1..] == items[i + 1..];
        ghost var before := State();
        out := VisitItem(items[i]);
        if out.Fail? {
          assert GenItems(before, items[i..]) == Emitted(State(), out);
          return;
        }
        i := i + 1;
      }
      assert items[i..] == [];
    }

    method VisitItem(it: Item) returns (out: Outcome)
      modifies this
      ensures Emitted(State(), out) == GenItem(old(State()), it)
      decreases it
    {
      match it {
        case Nothing =>
          out := Pass;
        case Text(run) =>
          out := if run == "" then Pass else Fail(NoAccept);
        case Node(s) =>
          out := VisitStmt(s);
      }
    }

    method VisitStmt(s: Stmt) returns (out: Outcome)
      modifies this
      ensures Emitted(State(), out) == GenStmt(old(State()), s)
      decreases s
    {
      match s
      case Assignment(n, e, d) =>
        out := VisitExpr(e);
        if out.Fail? { return; }
        if d {
          var slot := |variables|;
          variables := Put(variables, n, slot);
          var _ := AddInstruction(STORE_VAR, Num(slot));
        } else {
          match Find(variables, n) {
            case Some(k) =>
              var _ := AddInstruction(STORE_VAR, Num(k));
            case None =>
              out := Fail(NameError(n));
          }
        }
      case If(c, t, f) =>
        out := VisitIf(c, t, f);
      case While(c, body) =>
        out := VisitWhile(c, body);
      case For(v, start, end, body) =>
        out := VisitFor(v, start, end, body);
      case Function(n, ps, body) =>
        functions := Put(functions, n, |instructions|);
        var _ := AddInstruction(FUNCTION_START, Num(|ps|));
        out := VisitBlock(body);
        if out.Fail? { return; }
        var k := AddConstant(NoneV);
        var _ := AddInstruction(LOAD_CONST, Num(k));
        var _ := AddInstruction(RETURN, NoArg);
      case Return(value) =>
        match value {
          case Some(e) =>
            out := VisitExpr(e);
            if out.Fail? { return; }
          case None =>
            var k := AddConstant(NoneV);
            var _ := AddInstruction(LOAD_CONST, Num(k));
            out := Pass;
        }
        var _ := AddInstruction(RETURN, NoArg);
      case Print(e) =>
        out := VisitExpr(e);
        if out.Fail? { return; }
        var _ := AddInstruction(PRINT, NoArg);
      case ExpressionStatement(e) =>
        out := VisitExpr(e);
        if out.Fail? { return; }
        var _ := AddInstruction(POP, NoArg);
    }

    method VisitIf(c: Expr, t: seq<Item>, f: seq<Item>) returns (out: Outcome)
      modifies this
      ensures Emitted(State(), out) == GenStmt(old(State()), If(c, t, f))
      decreases If(c, t, f), 0
    {
      out := VisitExpr(c);
      if out.Fail? { return; }
      var elseLabel := AddInstruction(JUMP_IF_FALSE, NoArg);
      out := VisitBlock(t);
      if out.Fail? { return; }
      if f != [] {
        var endLabel := AddInstruction(JUMP, NoArg);
        Backpatch(elseLabel, |instructions|);
        out := VisitBlock(f);
        if out.Fail? { return; }
        Backpatch(endLabel, |instructions|);
      } else {
        Backpatch(elseLabel, |instructions|);
      }
    }

    method VisitWhile(c: Expr, body: seq<Item>) returns (out: Outcome)
      modifies this
      ensures Emitted(State(), out) == GenStmt(old(State()), While(c, body))
      decreases While(c, body), 0
    {
      var loopStart := |instructions|;
      out := VisitExpr(c);
      if out.Fail? { return; }
      var exitLabel := AddInstruction(JUMP_IF_FALSE, NoArg);
      out := VisitBlock(body);
      if out.Fail? { return; }
      var _ := AddInstruction(JUMP, Num(loopStart));
      Backpatch(exitLabel, |instructions|);
    }

    method VisitFor(v: string, start: Expr, end: Expr, body: seq<Item>) returns (out: Outcome)
      modifies this
      ensures Emitted(State(), out) == GenStmt(old(State()), For(v, start, end, body))
      decreases For(v, start, end, body), 1
    {
      out := VisitExpr(start);
      if out.Fail? { return; }
      var slot := |variables|;
      variables := Put(variables, v, slot);
      var _ := AddInstruction(STORE_VAR, Num(slot));
      out := VisitForLoop(v, start, end, body, slot);
    }

    /** The loop test, the body and the increment of visit_for. */
    method VisitForLoop(v: string, start: Expr, end: Expr, body: seq<Item>, slot: nat) returns (out: Outcome)
      modifies this
      ensures Emitted(State(), out) == GenForLoop(old(State()), v, start, end, body, slot)
      decreases For(v, start, end, body), 0
    {
      ghost var g1 := State();
      var loopStart := |instructions|;
      var _ := AddInstruction(LOAD_VAR, Num(slot));
      out := VisitExpr(end);
      ghost var b := GenExpr(Emit(g1, LOAD_VAR, Num(slot)), end);
      assert Emitted(State(), out) == b;
      if out.Fail? { return; }
      var _ := AddInstruction(BINARY_OP, Name("<="));
      var exitLabel := AddInstruction(JUMP_IF_FALSE, NoArg);
      out := VisitBlock(body);
      ghost var c := GenItems(Emit(Emit(b.gen, BINARY_OP, Name("<=")), JUMP_IF_FALSE, NoArg), body);
      assert Emitted(State(), out) == c;
      if out.Fail? { return; }
      EmitIncrement(slot, loopStart);
      Backpatch(exitLabel, |instructions|);
    }

    /** The end of a for loop's body: `v = v + 1`, then the jump back to the test. */
    method EmitIncrement(slot: nat, loopStart: nat)
      modifies this
      ensures State() == Increment(old(State()), slot, loopStart)
    {
      var _ := AddInstruction(LOAD_VAR, Num(slot));
      var one := AddConstant(IntV(1));
      var _ := AddInstruction(LOAD_CONST, Num(one));
      var _ := AddInstruction(BINARY_OP, Name("+"));
      var _ := AddInstruction(STORE_VAR, Num(slot));
      var _ := AddInstruction(JUMP, Num(loopStart));
    }

    /** generate: reset the state, visit the program, append HALT and return the
        instructions. */
    method Generate(p: Program) returns (r: Result<seq<Instr>>)
      modifies this
      ensures Emitted(State(), if r.Ok? then Pass else Fail(r.msg)) == GenerateProgram(p)
      ensures r.Ok? ==> r.value == instructions
    {
      instructions, constants, variables, functions := [], [], [], [];
      var out := VisitBlock(p.statements);
      if out.Fail? {
        return Err(out.msg);
      }
      var _ := AddInstruction(HALT, NoArg);
      r := Ok(instructions);
    }

    /** get_bytecode_listing. */
    method GetBytecodeListing() returns (text: string)
      ensures text == Listing(State())
    {
      text := Listing(State());
    }
  }

  /** The index the search loop of add_constant stops at is the one PoolIndex finds. */
  lemma PoolIndexFirst(pool: seq<Value>, v: Value, i: nat)
    requires i <= |pool|
    requires forall j :: 0 <= j < i ==> !PyEq(pool[j], v)
    requires i < |pool| ==> PyEq(pool[i], v)
    ensures i < |pool| ==> PoolIndex(pool, v) == Some(i)
    ensures i == |pool| ==> PoolIndex(pool, v) == None
  {
    var r := PoolIndex(pool, v);
    if r.Some? {
      assert r.value >= i;
    }
  }
}
