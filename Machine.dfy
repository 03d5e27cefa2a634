/** The stack virtual machine (src/virtual_machine.py). Step and Run say what one instruction
    and the counted execution loop do to the machine's state; the class VirtualMachine performs
    them with its fields updated in place and is proved to agree with them. */
module Machine {
  import opened Wrappers
  import opened Text
  import opened Values
  import opened Generator

  /** The machine's fields. `pc` is whatever the last jump stored: an integer, or the operand
      of a jump that had none (None) or a name. */
  datatype VmState = VmState(
    stack: seq<Value>,
    variables: map<Arg, Value>,
    callStack: seq<int>,
    pc: Arg,
    instructions: seq<Instr>,
    constants: seq<Value>,
    output: seq<string>,
    inputBuffer: seq<string>,
    halted: bool)

  /** The state after an operation, and whether it raised. When it raised, the state is the
      one at the moment of raising: values popped before the error stay popped. */
  datatype Exec = Exec(m: VmState, outcome: Outcome)

  /** `VirtualMachine()`. */
  const Initial := VmState([], map[], [], Num(0), [], [], [], [], false)

  /** `reset()`: everything but the instructions, the constants and the input buffer. */
  function AfterReset(m: VmState): VmState
  {
    m.(stack := [], variables := map[], callStack := [], pc := Num(0), output := [], halted := false)
  }

  /** `load_bytecode(instructions, constants)`. */
  function Loaded(m: VmState, code: seq<Instr>, pool: seq<Value>): VmState
  {
    AfterReset(m.(instructions := code, constants := pool))
  }

  const Underflow := "Stack underflow"
  const LimitExceeded := "Execution limit exceeded - possible infinite loop"

  /** `pop()`: the top of the stack and the machine without it. */
  function Popped(m: VmState): Result<(VmState, Value)>
  {
    if m.stack == [] then Err(Underflow)
    else Ok((m.(stack := m.stack[..|m.stack| - 1]), m.stack[|m.stack| - 1]))
  }

  function Pushed(m: VmState, v: Value): VmState
  {
    m.(stack := m.stack + [v])
  }

  /** What Python raises for `x + 1` and `x < n` when x is not an integer. */
  function AddError(pc: Arg): string
  {
    if pc.NoArg? then "unsupported operand type(s) for +: 'NoneType' and 'int'"
    else "can only concatenate str (not \"int\") to str"
  }

  function CompareError(pc: Arg): string
  {
    "'<' not supported between instances of '" + (if pc.NoArg? then "NoneType" else "str") + "' and 'int'"
  }

  /** What every instruction respects: the program and its constants are never written, and
      an instruction that raises leaves pc where it was. */
  predicate KeepsProgram(m: VmState, e: Exec)
  {
    e.m.instructions == m.instructions && e.m.constants == m.constants &&
    (e.outcome.Fail? ==> e.m.pc == m.pc)
  }

  /** `self.pc += 1` at the end of execute_instruction. */
  function Advanced(m: VmState): (e: Exec)
    ensures KeepsProgram(m, e)
  {
    match m.pc
    case Num(n) => Exec(m.(pc := Num(n + 1)), Pass)
    case _ => Exec(m, Fail(AddError(m.pc)))
  }

  /** Python list indexing `xs[k]`, negative k counting from the end. */
  function Index<T>(xs: seq<T>, k: Arg): Result<T>
  {
    match k
    case Num(n) => if -|xs| <= n < |xs| then Ok(xs[if n >= 0 then n else |xs| + n]) else Err("list index out of range")
    case NoArg => Err("list indices must be integers or slices, not NoneType")
    case Name(_) => Err("list indices must be integers or slices, not str")
  }

  /** LOAD_CONST, LOAD_VAR and STORE_VAR. */
  function StepData(m: VmState, i: Instr): (e: Exec)
    requires i.opcode in {LOAD_CONST, LOAD_VAR, STORE_VAR}
    ensures KeepsProgram(m, e)
  {
    match i.opcode
    case LOAD_CONST =>
      (match Index(m.constants, i.arg)
       case Ok(v) => Advanced(Pushed(m, v))
       case Err(e) => Exec(m, Fail(e)))
    case LOAD_VAR =>
      if i.arg in m.variables then Advanced(Pushed(m, m.variables[i.arg]))
      else Exec(m, Fail("Undefined variable at index " + ArgStr(i.arg)))
    case STORE_VAR =>
      (match Popped(m)
       case Err(e) => Exec(m, Fail(e))
       case Ok((m1, v)) => Advanced(m1.(variables := m1.variables[i.arg := v])))
  }

  /** BINARY_OP and UNARY_OP: the operator is the operand's text. */
  function StepOperator(m: VmState, i: Instr): (e: Exec)
    requires i.opcode in {BINARY_OP, UNARY_OP}
    ensures KeepsProgram(m, e)
  {
    match Popped(m)
    case Err(e) => Exec(m, Fail(e))
    case Ok((m1, top)) =>
      if i.opcode == UNARY_OP then
        (match ApplyUnary(ArgStr(i.arg), top)
         case Ok(v) => Advanced(Pushed(m1, v))
         case Err(e) => Exec(m1, Fail(e)))
      else
        (match Popped(m1)
         case Err(e) => Exec(m1, Fail(e))
         case Ok((m2, left)) =>
           (match ApplyBinary(left, ArgStr(i.arg), top)
            case Ok(v) => Advanced(Pushed(m2, v))
            case Err(e) => Exec(m2, Fail(e))))
  }

  /** JUMP, JUMP_IF_FALSE, JUMP_IF_TRUE, CALL, RETURN and HALT: they set pc (or halt) and do
      not advance it. */
  function StepControl(m: VmState, i: Instr): (e: Exec)
    requires i.opcode in {JUMP, JUMP_IF_FALSE, JUMP_IF_TRUE, CALL, RETURN, HALT}
    ensures KeepsProgram(m, e)
  {
    match i.opcode
    case JUMP => Exec(m.(pc := i.arg), Pass)
    case HALT => Exec(m.(halted := true), Pass)
    case CALL =>
      (match m.pc
       case Num(n) => Exec(m.(callStack := m.callStack + [n + 1], pc := i.arg), Pass)
       case _ => Exec(m, Fail(AddError(m.pc))))
    case RETURN => StepReturn(m)
    case _ =>
      (match Popped(m)
       case Err(e) => Exec(m, Fail(e))
       case Ok((m1, c)) =>
         if Truthy(c) == (i.opcode == JUMP_IF_TRUE) then Exec(m1.(pc := i.arg), Pass) else Advanced(m1))
  }

  /** RETURN: halt when no call is active, otherwise pop the return value, jump back to the
      saved address and push the value again. */
  function StepReturn(m: VmState): (e: Exec)
    ensures KeepsProgram(m, e)
  {
    if m.callStack == [] then Exec(m.(halted := true), Pass)
    else
      match Popped(m)
      case Err(e) => Exec(m, Fail(e))
      case Ok((m1, v)) =>
        var cs := m1.callStack;
        Exec(Pushed(m1.(callStack := cs[..|cs| - 1], pc := Num(cs[|cs| - 1])), v), Pass)
  }

  /** `call_builtin(name)`: input, len, str, int and float. */
  function Builtin(m: VmState, name: Arg): (e: Exec)
    ensures KeepsProgram(m, e) && e.m.pc == m.pc
  {
    if name == Name("input") then
      if m.inputBuffer != [] then Exec(Pushed(m.(inputBuffer := m.inputBuffer[1..]), StrV(m.inputBuffer[0])), Pass)
      else Exec(Pushed(m, StrV("")), Pass)
    else if name !in {Name("len"), Name("str"), Name("int"), Name("float")} then
      Exec(m, Fail("Unknown built-in function: " + ArgStr(name)))
    else
      match Popped(m)
      case Err(e) => Exec(m, Fail(e))
      case Ok((m1, v)) =>
        if name == Name("len") then
          (if v.StrV? then Exec(Pushed(m1, IntV(|v.s|)), Pass)
           else Exec(m1, Fail("object of type '" + TypeName(v) + "' has no len()")))
        else if name == Name("str") then Exec(Pushed(m1, StrV(Str(v))), Pass)
        else if name == Name("int") then
          (match IntCall(v)
           case Ok(r) => Exec(Pushed(m1, r.GetOr(IntV(0))), Pass)
           case Err(e) => Exec(m1, Fail(e)))
        else
          (match FloatCall(v)
           case Ok(r) => Exec(Pushed(m1, r.GetOr(FloatV(0.0))), Pass)
           case Err(e) => Exec(m1, Fail(e)))
  }

  /** `execute_instruction(i)`. The program and its constants are never written, and an
      instruction that raises leaves pc where it was. */
  function Step(m: VmState, i: Instr): (e: Exec)
    ensures KeepsProgram(m, e)
  {
    match i.opcode
    case LOAD_CONST => StepData(m, i)
    case LOAD_VAR => StepData(m, i)
    case STORE_VAR => StepData(m, i)
    case BINARY_OP => StepOperator(m, i)
    case UNARY_OP => StepOperator(m, i)
    case PRINT => StepIO(m, i)
    case INPUT => StepIO(m, i)
    case POP => StepIO(m, i)
    case FUNCTION_START => Advanced(m)
    case CALL_BUILTIN => BuiltinStep(m, i.arg)
    case JUMP => StepControl(m, i)
    case JUMP_IF_FALSE => StepControl(m, i)
    case JUMP_IF_TRUE => StepControl(m, i)
    case CALL => StepControl(m, i)
    case RETURN => StepControl(m, i)
    case HALT => StepControl(m, i)
    case Other(name) => Exec(m, Fail("Unknown opcode: " + name))
  }

  /** CALL_BUILTIN: the built-in, then pc advances unless it raised. */
  function BuiltinStep(m: VmState, name: Arg): (e: Exec)
    ensures KeepsProgram(m, e)
  {
    var b := Builtin(m, name);
    if b.outcome.Fail? then b else Advanced(b.m)
  }

  /** PRINT, INPUT and POP. */
  function StepIO(m: VmState, i: Instr): (e: Exec)
    requires i.opcode in {PRINT, INPUT, POP}
    ensures KeepsProgram(m, e)
  {
    match i.opcode
    case PRINT =>
      (match Popped(m)
       case Err(e) => Exec(m, Fail(e))
       case Ok((m1, v)) => Advanced(m1.(output := m1.output + [Str(v)])))
    case INPUT =>
      if m.inputBuffer != [] then Advanced(Pushed(m.(inputBuffer := m.inputBuffer[1..]), StrV(m.inputBuffer[0])))
      else Advanced(Pushed(m, StrV("")))
    case POP =>
      (match Popped(m)
       case Err(e) => Exec(m, Fail(e))
       case Ok((m1, _)) => Advanced(m1))
  }

  /** The end of `execute`: the limit check, then the halted flag. */
  function Finish(m: VmState, count: int, max: int): Result<bool>
  {
    if count >= max then Err(LimitExceeded) else Ok(m.halted)
  }

  /** The loop of `execute(max)`, from instruction_count = count: the final state and the
      result (the halted flag, or the error raised). */
  function Run(m: VmState, count: int, max: int): (r: (VmState, Result<bool>))
    ensures r.0.instructions == m.instructions && r.0.constants == m.constants
    ensures r.1.Ok? ==> r.1.value == r.0.halted
    ensures r.1 == Ok(false) ==> r.0.pc.Num? && r.0.pc.n >= |r.0.instructions|
    decreases max - count
  {
    if m.halted then (m, Finish(m, count, max))
    else if !m.pc.Num? then (m, Err(CompareError(m.pc)))
    else if m.pc.n >= |m.instructions| || count >= max then (m, Finish(m, count, max))
    else
      match Index(m.instructions, m.pc)
      case Err(e) => (m, Err(e))
      case Ok(i) =>
        var e := Step(m, i);
        if e.outcome.Fail? then (e.m, Err(e.outcome.msg)) else Run(e.m, count + 1, max)
  }

  /** VirtualMachine: its fields are updated in place by the methods below. */
  class VirtualMachine {
    var stack: seq<Value>
    var variables: map<Arg, Value>
    var callStack: seq<int>
    var pc: Arg
    var instructions: seq<Instr>
    var constants: seq<Value>
    var output: seq<string>
    var inputBuffer: seq<string>
    var halted: bool

    function State(): VmState
      reads this
    {
      VmState(stack, variables, callStack, pc, instructions, constants, output, inputBuffer, halted)
    }

    constructor ()
      ensures State() == Initial
    {
      stack := [];
      variables := map[];
      callStack := [];
      pc := Num(0);
      instructions := [];
      constants := [];
      output := [];
      inputBuffer := [];
      halted := false;
    }

    method LoadBytecode(code: seq<Instr>, pool: seq<Value>)
      modifies this
      ensures State() == Loaded(old(State()), code, pool)
    {
      instructions := code;
      constants := pool;
      Reset();
    }

    method Reset()
      modifies this
      ensures State() == AfterReset(old(State()))
    {
      stack := [];
      variables := map[];
      callStack := [];
      pc := Num(0);
      output := [];
      halted := false;
    }

    method Push(v: Value)
      modifies this
      ensures State() == Pushed(old(State()), v)
    {
      stack := stack + [v];
    }

    method Pop() returns (r: Result<Value>)
      modifies this
      ensures match Popped(old(State()))
        case Ok((m, v)) => r == Ok(v) && State() == m
        case Err(e) => r == Err(e) && State() == old(State())
    {
      if stack == [] {
        return Err(Underflow);
      }
      r := Ok(stack[|stack| - 1]);
      stack := stack[..|stack| - 1];
    }

    /** The top of the stack, which stays where it is. */
    method Peek() returns (r: Result<Value>)
      ensures stack == [] <==> r == Err("Stack is empty")
      ensures stack != [] ==> r == Ok(stack[|stack| - 1])
    {
      if stack == [] {
        return Err("Stack is empty");
      }
      return Ok(stack[|stack| - 1]);
    }

    method SetInput(lines: seq<string>)
      modifies this
      ensures State() == old(State()).(inputBuffer := lines)
    {
      inputBuffer := lines;
    }

    method GetOutput() returns (out: seq<string>)
      ensures out == output
    {
      out := output;
    }

    /** The `self.pc += 1` that ends most instructions. */
    method Advance() returns (out: Outcome)
      modifies this
      ensures Exec(State(), out) == Advanced(old(State()))
    {
      if !pc.Num? {
        return Fail(AddError(pc));
      }
      pc := Num(pc.n + 1);
      out := Pass;
    }

    method ExecuteInstruction(i: Instr) returns (out: Outcome)
      modifies this
      ensures Exec(State(), out) == Step(old(State()), i)
    {
      match i.opcode {
        case LOAD_CONST => out := ExecuteData(i);
        case LOAD_VAR => out := ExecuteData(i);
        case STORE_VAR => out := ExecuteData(i);
        case BINARY_OP => out := ExecuteOperator(i);
        case UNARY_OP => out := ExecuteOperator(i);
        case JUMP => out := ExecuteControl(i);
        case JUMP_IF_FALSE => out := ExecuteControl(i);
        case JUMP_IF_TRUE => out := ExecuteControl(i);
        case HALT => out := ExecuteControl(i);
        case RETURN => out := ExecuteControl(i);
        case CALL => out := ExecuteControl(i);
        case PRINT => out := ExecuteIO(i);
        case INPUT => out := ExecuteIO(i);
        case POP => out := ExecuteIO(i);
        case FUNCTION_START =>
          out := Advance();
        case CALL_BUILTIN =>
          out := ExecuteBuiltin(i.arg);
        case Other(name) =>
          out := Fail("Unknown opcode: " + name);
      }
    }

    /** PRINT, INPUT and POP. */
    method ExecuteIO(i: Instr) returns (out: Outcome)
      requires i.opcode in {PRINT, INPUT, POP}
      modifies this
      ensures Exec(State(), out) == StepIO(old(State()), i)
    {
      if i.opcode == INPUT {
        if inputBuffer != [] {
          var line := inputBuffer[0];
          inputBuffer := inputBuffer[1..];
          Push(StrV(line));
        } else {
          Push(StrV(""));
        }
      } else {
        var v := Pop();
        if v.Err? {
          return Fail(v.msg);
        }
        if i.opcode == PRINT {
          output := output + [Str(v.value)];
        }
      }
      out := Advance();
    }

    /** CALL_BUILTIN: the builtin, then the step past it when it succeeds. */
    method ExecuteBuiltin(name: Arg) returns (out: Outcome)
      modifies this
      ensures Exec(State(), out) == BuiltinStep(old(State()), name)
    {
      out := CallBuiltin(name);
      if out.Pass? {
        out := Advance();
      }
    }

    /** LOAD_CONST, LOAD_VAR and STORE_VAR. */
    method ExecuteData(i: Instr) returns (out: Outcome)
      requires i.opcode in {LOAD_CONST, LOAD_VAR, STORE_VAR}
      modifies this
      ensures Exec(State(), out) == StepData(old(State()), i)
    {
      var arg := i.arg;
      if i.opcode == LOAD_CONST {
        var c := Index(constants, arg);
        if c.Err? {
          return Fail(c.msg);
        }
        Push(c.value);
      } else if i.opcode == LOAD_VAR {
        if arg !in variables {
          return Fail("Undefined variable at index " + ArgStr(arg));
        }
        Push(variables[arg]);
      } else {
        var v := Pop();
        if v.Err? {
          return Fail(v.msg);
        }
        variables := variables[arg := v.value];
      }
      out := Advance();
    }

    /** BINARY_OP and UNARY_OP. */
    method ExecuteOperator(i: Instr) returns (out: Outcome)
      requires i.opcode in {BINARY_OP, UNARY_OP}
      modifies this
      ensures Exec(State(), out) == StepOperator(old(State()), i)
    {
      var top := Pop();
      if top.Err? {
        return Fail(top.msg);
      }
      var res;
      if i.opcode == UNARY_OP {
        res := ApplyUnary(ArgStr(i.arg), top.value);
      } else {
        var left := Pop();
        if left.Err? {
          return Fail(left.msg);
        }
        res := ApplyBinary(left.value, ArgStr(i.arg), top.value);
      }
      if res.Err? {
        return Fail(res.msg);
      }
      Push(res.value);
      out := Advance();
    }

    /** The instructions that set pc themselves, and HALT. */
    method ExecuteControl(i: Instr) returns (out: Outcome)
      requires i.opcode in {JUMP, JUMP_IF_FALSE, JUMP_IF_TRUE, CALL, RETURN, HALT}
      modifies this
      ensures Exec(State(), out) == StepControl(old(State()), i)
    {
      var arg := i.arg;
      if i.opcode == JUMP {
        pc := arg;
        return Pass;
      } else if i.opcode == HALT {
        halted := true;
        return Pass;
      } else if i.opcode == CALL {
        if !pc.Num? {
          return Fail(AddError(pc));
        }
        callStack := callStack + [pc.n + 1];
        pc := arg;
        return Pass;
      } else if i.opcode == RETURN {
        out := ExecuteReturn();
        return;
      }
      var c := Pop();
      if c.Err? {
        return Fail(c.msg);
      }
      if Truthy(c.value) == (i.opcode == JUMP_IF_TRUE) {
        pc := arg;
        return Pass;
      }
      out := Advance();
    }

    method ExecuteReturn() returns (out: Outcome)
      modifies this
      ensures Exec(State(), out) == StepReturn(old(State()))
    {
      if callStack == [] {
        halted := true;
        return Pass;
      }
      var v := Pop();
      if v.Err? {
        return Fail(v.msg);
      }
      var address := callStack[|callStack| - 1];
      callStack := callStack[..|callStack| - 1];
      pc := Num(address);
      Push(v.value);
      out := Pass;
    }

    method CallBuiltin(name: Arg) returns (out: Outcome)
      modifies this
      ensures Exec(State(), out) == Builtin(old(State()), name)
    {
      if name == Name("input") {
        if inputBuffer != [] {
          var line := inputBuffer[0];
          inputBuffer := inputBuffer[1..];
          Push(StrV(line));
        } else {
          Push(StrV(""));
        }
        return Pass;
      }
      if name !in {Name("len"), Name("str"), Name("int"), Name("float")} {
        return Fail("Unknown built-in function: " + ArgStr(name));
      }
      var v := Pop();
      if v.Err? {
        return Fail(v.msg);
      }
      var x := v.value;
      if name == Name("len") {
        if !x.StrV? {
          return Fail("object of type '" + TypeName(x) + "' has no len()");
        }
        Push(IntV(|x.s|));
      } else if name == Name("str") {
        Push(StrV(Str(x)));
      } else if name == Name("int") {
        var r := IntCall(x);
        if r.Err? {
          return Fail(r.msg);
        }
        Push(r.value.GetOr(IntV(0)));
      } else {
        var r := FloatCall(x);
        if r.Err? {
          return Fail(r.msg);
        }
        Push(r.value.GetOr(FloatV(0.0)));
      }
      out := Pass;
    }

    /** `execute(max_instructions)`: the halted flag, or the error raised. */
    method Execute(max: int) returns (r: Result<bool>)
      modifies this
      ensures (State(), r) == Run(old(State()), 0, max)
    {
      var count := 0;
      while true
        invariant Run(State(), count, max) == Run(old(State()), 0, max)
        decreases max - count
      {
        if halted {
          break;
        }
        if !pc.Num? {
          return Err(CompareError(pc));
        }
        if pc.n >= |instructions| || count >= max {
          break;
        }
        var i := Index(instructions, pc);
        if i.Err? {
          return Err(i.msg);
        }
        var out := ExecuteInstruction(i.value);
        if out.Fail? {
          return Err(out.msg);
        }
        count := count + 1;
      }
      if count >= max {
        return Err(LimitExceeded);
      }
      return Ok(halted);
    }
  }
}
